/**
 The storage executor against a server that may answer anything. Every call is
 appended to a ghost trace; each write in it must be justified by the calls that
 precede it.
 */
module StorageExecutor {
  import opened Prelude
  import opened StorageIntent

  /** A call and its answer; None stands for a failed or refused answer. */
  datatype Call =
    | ReadCluster(cluster: Option<string>)
    | ReadContainers(rows: Option<seq<Row>>)
    | ReadDisks(disks: Option<seq<Option<string>>>)
    | ReadPools(usable: bool)
    | Create(name: string)
    | Remove(row: Row)

  datatype Report = AlreadyAbsent | Deleted

  predicate Writes(c: Call) {
    c.Create? || c.Remove?
  }

  /** An inventory the executor accepts: its default is the approved one. */
  predicate Approved(config: Intent, rows: seq<Row>) {
    Discovered(rows) == Some(config.default)
  }

  /** A replacement that is already there shows the requested settings. */
  predicate ExistingVerified(config: Intent, rows: seq<Row>) {
    forall i :: 0 <= i < |config.containers| && Present(rows, config.containers[i].name) ==> VerifiedIn(config.containers[i], rows)
  }

  predicate IdentityRead(config: Intent, c: Call) {
    c == ReadCluster(Some(config.cluster))
  }

  ghost predicate CreatedBefore(before: seq<Call>, name: string) {
    exists k :: 0 <= k < |before| && before[k] == Create(name)
  }

  ghost predicate RemovedBefore(before: seq<Call>) {
    exists k :: 0 <= k < |before| && before[k].Remove?
  }

  /** A container is created once, only if it is requested and missing from the
      inventory just read, after the existing replacements were verified. */
  ghost predicate CreateJustified(config: Intent, before: seq<Call>, name: string) {
    var n := |before|;
    && (exists i :: 0 <= i < |config.containers| && config.containers[i].name == name)
    && !CreatedBefore(before, name) && !RemovedBefore(before)
    && n >= 4
    && before[1].ReadContainers? && before[1].rows.Some? && ExistingVerified(config, before[1].rows.value)
    && IdentityRead(config, before[n - 4])
    && before[n - 3].ReadContainers? && before[n - 3].rows.Some?
    && Approved(config, before[n - 3].rows.value) && !Present(before[n - 3].rows.value, name)
    && IdentityRead(config, before[n - 2])
    && before[n - 1] == ReadPools(true)
  }

  /** A container is removed once: the approved default, out of an inventory that
      shows all replacements, between two clean reads of the virtual disks, right
      after the cluster identified itself. */
  ghost predicate RemoveJustified(config: Intent, before: seq<Call>, row: Row) {
    var n := |before|;
    && !RemovedBefore(before)
    && config.default.Some?
    && var target := config.default.value;
    && Named(row, target.name) && row.uuid == target.uuid && IsNumeric(row.id)
    && n >= 5
    && before[n - 5].ReadDisks? && before[n - 5].disks.Some? && PassesDependencyCheck(before[n - 5].disks.value, target.uuid)
    && IdentityRead(config, before[n - 4])
    && before[n - 3].ReadContainers? && before[n - 3].rows.Some?
    && Approved(config, before[n - 3].rows.value) && AllVerified(config.containers, before[n - 3].rows.value)
    && row in before[n - 3].rows.value
    && before[n - 2].ReadDisks? && before[n - 2].disks.Some? && PassesDependencyCheck(before[n - 2].disks.value, target.uuid)
    && IdentityRead(config, before[n - 1])
  }

  ghost predicate Justified(config: Intent, before: seq<Call>, c: Call) {
    match c
    case Create(name) => CreateJustified(config, before, name)
    case Remove(row) => RemoveJustified(config, before, row)
    case _ => true
  }

  ghost predicate AllJustified(config: Intent, trace: seq<Call>) {
    forall k :: 0 <= k < |trace| ==> Justified(config, trace[..k], trace[k])
  }

  lemma OneMoreCall(config: Intent, trace: seq<Call>, c: Call)
    requires AllJustified(config, trace) && Justified(config, trace, c)
    ensures AllJustified(config, trace + [c])
  {
    forall k | 0 <= k < |trace + [c]|
      ensures Justified(config, (trace + [c])[..k], (trace + [c])[k])
    {
      assert (trace + [c])[..k] == trace[..k];
      assert trace[..|trace|] == trace;
    }
  }

  /** No write is ever repeated: at most one removal, at most one creation per name. */
  lemma WritesHappenOnce(config: Intent, trace: seq<Call>, i: nat, j: nat)
    requires AllJustified(config, trace) && i < j < |trace| && Writes(trace[i]) && Writes(trace[j])
    ensures trace[i].Create?
    ensures trace[j].Create? ==> trace[i].name != trace[j].name
  {
    assert Justified(config, trace[..j], trace[j]);
    assert trace[..j][i] == trace[i];
  }

  /** What a removal touches is the default that was approved, as the inventory
      before it identified it: the only default container there. */
  lemma RemovalTargetsApprovedDefault(config: Intent, trace: seq<Call>, j: nat)
    requires AllJustified(config, trace) && j < |trace| && trace[j].Remove?
    ensures config.default == Some(Default(trace[j].row.name.value, trace[j].row.uuid))
    ensures j >= 3 && trace[j - 3].ReadContainers? && trace[j - 3].rows.Some?
    ensures OnlyDefault(trace[j - 3].rows.value, trace[j].row.uuid)
  {
    assert Justified(config, trace[..j], trace[j]);
    var rows := trace[..j][j - 3].rows.value;
    forall k | 0 <= k < |rows| && rows[k].name.Some? && IsDefaultName(rows[k].name.value)
      ensures Canonical(rows[k].uuid) == Some(trace[j].row.uuid)
    {
      DiscoveredIsUnique(rows, k);
    }
  }

  predicate OnlyDefault(rows: seq<Row>, uuid: string) {
    forall k :: 0 <= k < |rows| && rows[k].name.Some? && IsDefaultName(rows[k].name.value) ==>
      Canonical(rows[k].uuid) == Some(uuid)
  }

  /** The last two calls of a finished execution: the inventory that proves it. */
  ghost predicate Proves(config: Intent, trace: seq<Call>, report: Report) {
    && trace != []
    && var last := trace[|trace| - 1];
    && last.ReadContainers? && last.rows.Some?
    && AllVerified(config.containers, last.rows.value)
    && Discovered(last.rows.value) == Some(None)
    && match report
       case AlreadyAbsent => config.default.None? && !RemovedBefore(trace)
       case Deleted =>
         config.default.Some? && RemovedBefore(trace) && Gone(last.rows.value, config.default.value)
  }

  predicate Gone(rows: seq<Row>, target: Default) {
    forall k :: 0 <= k < |rows| ==> rows[k].uuid != target.uuid && !Named(rows[k], target.name)
  }

  /** `verify_replacements`: a loop over the requested containers. */
  method VerifyReplacements(containers: seq<Desired>, rows: seq<Row>) returns (ok: bool)
    ensures ok <==> AllVerified(containers, rows)
  {
    for i := 0 to |containers|
      invariant forall j :: 0 <= j < i ==> VerifiedIn(containers[j], rows)
    {
      var found: Option<nat> := None;
      for k := 0 to |rows|
        invariant found.None? ==> forall j :: 0 <= j < k ==> !Named(rows[j], containers[i].name)
        invariant found.Some? ==> found.value < k && Named(rows[found.value], containers[i].name)
        invariant found.Some? ==> forall j :: 0 <= j < k && Named(rows[j], containers[i].name) ==> j == found.value
      {
        if Named(rows[k], containers[i].name) {
          if found.Some? {
            assert Named(rows[found.value], containers[i].name) && found.value != k;
            return false;
          }
          found := Some(k);
        }
      }
      if found.None? || !Shows(containers[i], rows[found.value]) {
        assert !VerifiedIn(containers[i], rows);
        return false;
      }
      assert VerifiedIn(containers[i], rows);
    }
    ok := true;
  }

  ghost predicate NoWritesSince(before: seq<Call>, after: seq<Call>) {
    && before <= after
    && forall k :: |before| <= k < |after| ==> !Writes(after[k])
  }

  lemma ReadsKeepWrites(before: seq<Call>, after: seq<Call>)
    requires NoWritesSince(before, after)
    ensures forall name :: CreatedBefore(after, name) ==> CreatedBefore(before, name)
    ensures RemovedBefore(after) ==> RemovedBefore(before)
    ensures RemovedBefore(before) ==> RemovedBefore(after)
  {
    if RemovedBefore(before) {
      var k :| 0 <= k < |before| && before[k].Remove?;
      assert after[k].Remove?;
    }
  }

  lemma ReadsAddUp(a: seq<Call>, b: seq<Call>, c: seq<Call>)
    requires NoWritesSince(a, b) && NoWritesSince(b, c)
    ensures NoWritesSince(a, c)
  {
  }

  class Client {
    const config: Intent
    ghost var trace: seq<Call>

    constructor (config: Intent)
      ensures this.config == config && trace == []
    {
      this.config := config;
      trace := [];
    }

    ghost predicate Valid()
      reads this
    {
      AllJustified(config, trace)
    }

    /** One call, with the server's answer in it. */
    ghost method Log(c: Call)
      requires Valid() && Justified(config, trace, c)
      modifies this
      ensures Valid() && trace == old(trace) + [c]
    {
      OneMoreCall(config, trace, c);
      trace := trace + [c];
    }

    /** `guard`: not cancelled, authorised, and the cluster is the approved one. */
    method Guard() returns (ok: bool)
      requires Valid()
      modifies this
      ensures Valid() && NoWritesSince(old(trace), trace)
      ensures ok ==> trace == old(trace) + [ReadCluster(Some(config.cluster))]
    {
      var allowed: bool := *;
      if !allowed {
        return false;
      }
      var answer: Option<string> := *;
      Log(ReadCluster(answer));
      ok := answer == Some(config.cluster);
    }

    method Containers() returns (rows: Option<seq<Row>>)
      requires Valid()
      modifies this
      ensures Valid() && trace == old(trace) + [ReadContainers(rows)]
    {
      rows := *;
      Log(ReadContainers(rows));
    }

    /** `snapshot`: a guarded inventory whose default is the approved one. */
    method Snapshot() returns (rows: Option<seq<Row>>)
      requires Valid()
      modifies this
      ensures Valid() && NoWritesSince(old(trace), trace)
      ensures rows.Some? ==> Approved(config, rows.value)
      ensures rows.Some? ==> trace == old(trace) + [ReadCluster(Some(config.cluster)), ReadContainers(rows)]
    {
      var ok := Guard();
      if !ok {
        return None;
      }
      rows := Containers();
      if rows.Some? && !Approved(config, rows.value) {
        rows := None;
      }
    }

    /** `check_dependencies` */
    method CheckDependencies(target: string) returns (ok: bool, ghost disks: Option<seq<Option<string>>>)
      requires Valid()
      modifies this
      ensures Valid() && trace == old(trace) + [ReadDisks(disks)]
      ensures ok <==> disks.Some? && PassesDependencyCheck(disks.value, target)
    {
      var answer: Option<seq<Option<string>>> := *;
      disks := answer;
      Log(ReadDisks(answer));
      ok := answer.Some? && PassesDependencyCheck(answer.value, target);
    }

    /** The inventory of the first snapshot, before anything was created. */
    ghost predicate Checked()
      reads this
    {
      && |trace| >= 2 && trace[1].ReadContainers? && trace[1].rows.Some?
      && ExistingVerified(config, trace[1].rows.value)
    }

    /** The inventory just read does not show the container, and the cluster
        identified itself once more. */
    ghost predicate SeenMissing(name: string)
      reads this
    {
      var n := |trace|;
      && n >= 3
      && IdentityRead(config, trace[n - 3])
      && trace[n - 2].ReadContainers? && trace[n - 2].rows.Some?
      && Approved(config, trace[n - 2].rows.value) && !Present(trace[n - 2].rows.value, name)
      && IdentityRead(config, trace[n - 1])
    }

    /** `create`: the storage pool, then the one write, unless the pools refuse it. */
    method CreateContainer(i: nat) returns (ok: bool)
      requires Valid() && Checked() && i < |config.containers| && SeenMissing(config.containers[i].name)
      requires !CreatedBefore(trace, config.containers[i].name) && !RemovedBefore(trace)
      modifies this
      ensures Valid() && old(trace) <= trace && !RemovedBefore(trace)
      ensures forall name :: CreatedBefore(trace, name) ==> CreatedBefore(old(trace), name) || name == config.containers[i].name
    {
      var usable: bool := *;
      Log(ReadPools(usable));
      if !usable {
        return false;
      }
      Log(Create(config.containers[i].name));
      ok := *;
    }

    ghost predicate LastShows(name: string)
      reads this
    {
      && trace != []
      && var last := trace[|trace| - 1];
      && last.ReadContainers? && last.rows.Some? && Present(last.rows.value, name)
    }

    /** Polls the inventory until the new container shows its settings. */
    method AwaitContainer(i: nat) returns (ok: bool)
      requires Valid() && i < |config.containers|
      modifies this
      ensures Valid() && NoWritesSince(old(trace), trace)
      ensures ok ==> LastShows(config.containers[i].name)
    {
      for attempt := 0 to 15
        invariant Valid() && NoWritesSince(old(trace), trace)
      {
        var rows := Snapshot();
        if rows.None? {
          return false;
        }
        if Present(rows.value, config.containers[i].name) {
          ok := VerifyReplacements([config.containers[i]], rows.value);
          return;
        }
        // the source sleeps between two attempts
      }
      ok := false;
    }

    /** One turn of the loop over the requested containers. */
    method EnsureContainer(i: nat) returns (ok: bool)
      requires Valid() && Checked() && i < |config.containers|
      requires !CreatedBefore(trace, config.containers[i].name) && !RemovedBefore(trace)
      modifies this
      ensures Valid() && old(trace) <= trace && !RemovedBefore(trace)
      ensures forall name :: CreatedBefore(trace, name) ==> CreatedBefore(old(trace), name) || name == config.containers[i].name
      ensures ok ==> LastShows(config.containers[i].name)
    {
      var rows := Snapshot();
      ReadsKeepWrites(old(trace), trace);
      if rows.None? || Present(rows.value, config.containers[i].name) {
        return rows.Some?;
      }
      ok := Guard();
      ReadsKeepWrites(old(trace), trace);
      if !ok {
        return;
      }
      ok := CreateContainer(i);
      if ok {
        ghost var created := trace;
        ok := AwaitContainer(i);
        ReadsKeepWrites(created, trace);
      }
    }

    /** The first inventory: replacements that exist must already be right. */
    method CheckExisting() returns (ok: bool)
      requires Valid() && trace == []
      modifies this
      ensures Valid() && NoWritesSince(old(trace), trace)
      ensures ok ==> Checked()
    {
      var rows := Snapshot();
      if rows.None? {
        return false;
      }
      for i := 0 to |config.containers|
        invariant trace == [ReadCluster(Some(config.cluster)), ReadContainers(rows)]
        invariant forall j :: 0 <= j < i && Present(rows.value, config.containers[j].name) ==> VerifiedIn(config.containers[j], rows.value)
      {
        if Present(rows.value, config.containers[i].name) {
          ok := VerifyReplacements([config.containers[i]], rows.value);
          if !ok {
            return;
          }
          assert [config.containers[i]][0] == config.containers[i];
        }
      }
      ok := true;
    }

    /** Brings all requested containers into the inventory. */
    method EnsureAll() returns (ok: bool)
      requires Valid() && trace == [] && ValidIntent(config)
      modifies this
      ensures Valid() && !RemovedBefore(trace)
    {
      ok := CheckExisting();
      if !ok {
        return;
      }
      for i := 0 to |config.containers|
        invariant Valid() && Checked() && !RemovedBefore(trace)
        invariant forall j :: i <= j < |config.containers| ==> !CreatedBefore(trace, config.containers[j].name)
      {
        ok := EnsureContainer(i);
        if !ok {
          return;
        }
      }
      ok := true;
    }

    /** An approved inventory with every replacement verified. */
    method VerifiedSnapshot() returns (rows: Option<seq<Row>>)
      requires Valid()
      modifies this
      ensures Valid() && NoWritesSince(old(trace), trace)
      ensures rows.Some? ==> Approved(config, rows.value) && AllVerified(config.containers, rows.value)
      ensures rows.Some? ==> trace == old(trace) + [ReadCluster(Some(config.cluster)), ReadContainers(rows)]
    {
      rows := Snapshot();
      if rows.Some? {
        var ok := VerifyReplacements(config.containers, rows.value);
        if !ok {
          rows := None;
        }
      }
    }

    /** The row of the approved default, compared by its spelling; a row with the
        UUID in another spelling is not found and ends the execution. */
    method FindTarget(rows: seq<Row>, target: Default) returns (row: Option<Row>)
      ensures row.Some? ==> row.value in rows && Targets(row.value, target)
      ensures row.None? ==> forall k :: 0 <= k < |rows| ==> !Targets(rows[k], target)
    {
      for k := 0 to |rows|
        invariant forall j :: 0 <= j < k ==> !Targets(rows[j], target)
      {
        if Targets(rows[k], target) {
          return Some(rows[k]);
        }
      }
      row := None;
    }

    /** All reads that must succeed before the removal, in their order. */
    method PrepareRemoval(target: Default) returns (row: Option<Row>)
      requires Valid() && config.default == Some(target) && !RemovedBefore(trace)
      modifies this
      ensures Valid() && NoWritesSince(old(trace), trace)
      ensures row.Some? && IsNumeric(row.value.id) ==> RemoveJustified(config, trace, row.value)
    {
      row := None;
      var clean, first := CheckDependencies(target.uuid);
      if !clean {
        return;
      }
      var rows := VerifiedSnapshot();
      if rows.None? {
        return;
      }
      row := FindTarget(rows.value, target);
      if row.None? {
        return;
      }
      var still, second := CheckDependencies(target.uuid);
      if !still {
        return None;
      }
      var ok := Guard();
      if !ok {
        return None;
      }
      assert trace == old(trace) + [ReadDisks(first), ReadCluster(Some(config.cluster)), ReadContainers(rows),
                                    ReadDisks(second), ReadCluster(Some(config.cluster))];
      ReadsKeepWrites(old(trace), trace);
    }

    /** One look after the removal; None ends the execution with an exception. */
    method LookForTarget(target: Default) returns (gone: Option<bool>)
      requires Valid() && config.default == Some(target) && RemovedBefore(trace)
      modifies this
      ensures Valid() && NoWritesSince(old(trace), trace) && RemovedBefore(trace)
      ensures gone == Some(true) ==> Proves(config, trace, Deleted)
    {
      var ok := Guard();
      if !ok {
        ReadsKeepWrites(old(trace), trace);
        return None;
      }
      var rows := Containers();
      ReadsKeepWrites(old(trace), trace);
      if rows.None? {
        return None;
      }
      ok := VerifyReplacements(config.containers, rows.value);
      if !ok {
        return None;
      }
      if !Gone(rows.value, target) {
        return Some(false);
      }
      gone := if Discovered(rows.value) == Some(None) then Some(true) else None;
    }

    /** After the removal: reads only, until the default is gone. */
    method AwaitRemoval(target: Default) returns (ok: bool)
      requires Valid() && config.default == Some(target) && RemovedBefore(trace)
      modifies this
      ensures Valid() && NoWritesSince(old(trace), trace)
      ensures ok ==> Proves(config, trace, Deleted)
    {
      for attempt := 0 to 15
        invariant Valid() && NoWritesSince(old(trace), trace) && RemovedBefore(trace)
      {
        ghost var before := trace;
        var gone := LookForTarget(target);
        ReadsAddUp(old(trace), before, trace);
        if gone.None? {
          return false;
        }
        if gone.value {
          return true;
        }
      }
      ok := false;
    }

    /** `execute`. None stands for an exception; whatever the server answered, the
        writes that were made are justified, and a report is proved by the last
        inventory. */
    method Execute() returns (report: Option<Report>)
      requires trace == []
      modifies this
      ensures AllJustified(config, trace)
      ensures !ValidIntent(config) ==> report.None? && trace == []
      ensures report.Some? ==> Proves(config, trace, report.value)
    {
      report := None;
      if !ValidIntent(config) {
        return;
      }
      var ok := EnsureAll();
      if !ok {
        return;
      }
      ghost var ensured := trace;
      var rows := VerifiedSnapshot();
      ReadsKeepWrites(ensured, trace);
      if rows.None? {
        return;
      }
      if config.default.None? {
        return Some(AlreadyAbsent);
      }
      var target := config.default.value;
      ghost var verified := trace;
      var row := PrepareRemoval(target);
      ReadsKeepWrites(verified, trace);
      if row.None? || !IsNumeric(row.value.id) {
        return;
      }
      Log(Remove(row.value));
      assert trace[|trace| - 1].Remove?;
      var confirmed: bool := *;
      if !confirmed {
        return;
      }
      ok := AwaitRemoval(target);
      if ok {
        report := Some(Deleted);
      }
    }
  }
}
