/**
 Rotation of CVM and iDRAC passwords: the executor reads everything before it
 changes anything, changes each target once, and reports per target what it knows.
 Targets may answer anything, and the operator may cancel anywhere.
 */
module CredentialRotation {
  import opened Prelude

  type Ref = string
  type Ip = string

  /** `ip` is the canonical form of the address. */
  datatype Target = Target(address: string, ip: Ip, current: Ref, replacement: Ref)

  datatype Config = Config(cvms: seq<Target>, idracs: seq<Target>)

  /** What `validate_intent` establishes before the executor runs. */
  predicate ValidGroup(targets: seq<Target>) {
    && |targets| <= 64
    && (forall i, j :: 0 <= i < j < |targets| ==> targets[i].ip != targets[j].ip && targets[i].address != targets[j].address)
    && (forall i :: 0 <= i < |targets| ==> targets[i].current != targets[i].replacement)
  }

  predicate ValidIntent(config: Config) {
    && ValidGroup(config.cvms) && ValidGroup(config.idracs)
    && (config.cvms != [] || config.idracs != [])
    && (forall i :: 0 <= i < |config.cvms| ==>
          config.cvms[i].current == config.cvms[0].current && config.cvms[i].replacement == config.cvms[0].replacement)
  }

  /** A call that reached a target and, for reads, its good answer. */
  datatype Call =
    | CvmLogin(address: string, ref: Ref)
    | CvmsDiscovered(ips: set<Ip>)
    | IdracFound(address: string, ref: Ref)
    | ChangeCvms(address: string)
    | ChangeIdrac(address: string)
    | IdracLogin(address: string, ref: Ref)

  predicate Changes(c: Call) {
    c.ChangeCvms? || c.ChangeIdrac?
  }

  datatype Operation = CvmCluster | Idrac

  datatype Status = ChangeAttempted | Verified

  datatype Entry = Entry(target: string, operation: Operation, status: Status, verifiedCvms: seq<string>)

  function Addresses(targets: seq<Target>): seq<string> {
    seq(|targets|, i requires 0 <= i < |targets| => targets[i].address)
  }

  function Ips(targets: seq<Target>): set<Ip> {
    set t | t in targets :: t.ip
  }

  /** Every read-only check of every selected target succeeded. */
  ghost predicate PreflightDone(config: Config, trace: seq<Call>) {
    && (forall i :: 0 <= i < |config.cvms| ==> CvmLogin(config.cvms[i].address, config.cvms[i].current) in trace)
    && (config.cvms != [] ==> CvmsDiscovered(Ips(config.cvms)) in trace)
    && (forall i :: 0 <= i < |config.idracs| ==> IdracFound(config.idracs[i].address, config.idracs[i].current) in trace)
  }

  /** A change is made once per target, after the whole preflight. */
  ghost predicate Justified(config: Config, before: seq<Call>, c: Call) {
    Changes(c) ==> PreflightDone(config, before) && c !in before
  }

  ghost predicate AllJustified(config: Config, trace: seq<Call>) {
    forall k :: 0 <= k < |trace| ==> Justified(config, trace[..k], trace[k])
  }

  lemma OneMoreCall(config: Config, trace: seq<Call>, c: Call)
    requires AllJustified(config, trace) && Justified(config, trace, c)
    ensures AllJustified(config, trace + [c])
  {
    forall k | 0 <= k < |trace + [c]|
      ensures Justified(config, (trace + [c])[..k], (trace + [c])[k])
    {
      assert (trace + [c])[..k] == trace[..k];
      assert trace[..|trace|] == trace;
    }
  }

  /** The changes of a trace, in order, as the entries that report them. */
  function ChangesOf(trace: seq<Call>): seq<(string, Operation)> {
    if trace == [] then []
    else
      var last := trace[|trace| - 1];
      ChangesOf(trace[..|trace| - 1]) +
      if last.ChangeCvms? then [(last.address, CvmCluster)] else if last.ChangeIdrac? then [(last.address, Idrac)] else []
  }

  lemma ChangesGrow(trace: seq<Call>, c: Call)
    ensures ChangesOf(trace + [c]) ==
      ChangesOf(trace) + if c.ChangeCvms? then [(c.address, CvmCluster)] else if c.ChangeIdrac? then [(c.address, Idrac)] else []
  {
    assert (trace + [c])[..|trace + [c]| - 1] == trace;
  }

  function Reported(results: seq<Entry>): seq<(string, Operation)> {
    seq(|results|, i requires 0 <= i < |results| => (results[i].target, results[i].operation))
  }

  /** Somewhere in the trace the later call comes after the first. */
  predicate Precedes(trace: seq<Call>, first: Call, later: Call) {
    trace != []
    && (var before, last := trace[..|trace| - 1], trace[|trace| - 1];
        Precedes(before, first, later) || (last == later && first in before))
  }

  lemma {:induction false} PrecedesLonger(trace: seq<Call>, longer: seq<Call>, first: Call, later: Call)
    requires trace <= longer && Precedes(trace, first, later)
    ensures Precedes(longer, first, later)
  {
    if |trace| < |longer| {
      PrecedesLonger(trace, longer[..|longer| - 1], first, later);
    } else {
      assert trace == longer;
    }
  }

  lemma PrecedesNow(trace: seq<Call>, first: Call, later: Call)
    requires first in trace
    ensures Precedes(trace + [later], first, later)
  {
    assert (trace + [later])[..|trace|] == trace;
  }

  /** A verified entry rests on logins with the replacement that come after the change
      the entry reports. */
  ghost predicate EntryProved(config: Config, trace: seq<Call>, e: Entry) {
    && (forall a :: a in e.verifiedCvms ==>
          && e.operation == CvmCluster
          && exists t :: t in config.cvms && t.address == a && Precedes(trace, ChangeCvms(e.target), CvmLogin(a, t.replacement)))
    && (e.status == Verified ==>
          match e.operation
          case CvmCluster => e.verifiedCvms == Addresses(config.cvms)
          case Idrac =>
            exists t :: t in config.idracs && t.address == e.target
                        && Precedes(trace, ChangeIdrac(e.target), IdracLogin(e.target, t.replacement)))
  }

  /** All results but possibly the last are verified; each is proved; and they are
      exactly the changes that were made. */
  ghost predicate HonestReport(config: Config, trace: seq<Call>, results: seq<Entry>) {
    && (forall i :: 0 <= i < |results| - 1 ==> results[i].status == Verified)
    && (forall i :: 0 <= i < |results| ==> EntryProved(config, trace, results[i]))
    && Reported(results) == ChangesOf(trace)
  }

  /** What a complete rotation reports. */
  function Complete(config: Config): seq<Entry> {
    (if config.cvms == [] then [] else [Entry(config.cvms[0].address, CvmCluster, Verified, Addresses(config.cvms))])
    + IdracEntries(config.idracs)
  }

  function IdracEntries(targets: seq<Target>): seq<Entry> {
    seq(|targets|, i requires 0 <= i < |targets| => Entry(targets[i].address, Idrac, Verified, []))
  }

  /******* Preflight *******/

  method PreflightCvms(config: Config) returns (ok: bool, ghost trace: seq<Call>)
    ensures forall c :: c in trace ==> !Changes(c)
    ensures ok ==> forall i :: 0 <= i < |config.cvms| ==> CvmLogin(config.cvms[i].address, config.cvms[i].current) in trace
    ensures ok && config.cvms != [] ==> CvmsDiscovered(Ips(config.cvms)) in trace
  {
    trace := [];
    for i := 0 to |config.cvms|
      invariant forall c :: c in trace ==> !Changes(c)
      invariant forall j :: 0 <= j < i ==> CvmLogin(config.cvms[j].address, config.cvms[j].current) in trace
    {
      var answered: bool := *;
      if !answered {
        return false, trace;
      }
      trace := trace + [CvmLogin(config.cvms[i].address, config.cvms[i].current)];
    }
    if config.cvms != [] {
      var discovered: set<Ip> := *;
      trace := trace + [CvmsDiscovered(discovered)];
      if discovered != Ips(config.cvms) {
        return false, trace;
      }
    }
    ok := true;
  }

  method Preflight(config: Config) returns (ok: bool, ghost trace: seq<Call>)
    ensures forall c :: c in trace ==> !Changes(c)
    ensures ok ==> PreflightDone(config, trace)
  {
    ok, trace := PreflightCvms(config);
    if !ok {
      return;
    }
    ghost var cvms := trace;
    for i := 0 to |config.idracs|
      invariant forall c :: c in trace ==> !Changes(c)
      invariant forall c :: c in cvms ==> c in trace
      invariant forall j :: 0 <= j < i ==> IdracFound(config.idracs[j].address, config.idracs[j].current) in trace
    {
      var answered: bool := *;
      if !answered {
        return false, trace;
      }
      trace := trace + [IdracFound(config.idracs[i].address, config.idracs[i].current)];
    }
  }

  /******* Changes *******/

  lemma JustifiedChange(config: Config, trace: seq<Call>, c: Call)
    requires AllJustified(config, trace) && PreflightDone(config, trace) && c !in trace
    ensures AllJustified(config, trace + [c]) && PreflightDone(config, trace + [c])
  {
    OneMoreCall(config, trace, c);
  }

  lemma JustifiedRead(config: Config, trace: seq<Call>, c: Call)
    requires AllJustified(config, trace) && PreflightDone(config, trace) && !Changes(c)
    ensures AllJustified(config, trace + [c]) && PreflightDone(config, trace + [c])
    ensures ChangesOf(trace + [c]) == ChangesOf(trace)
  {
    OneMoreCall(config, trace, c);
    ChangesGrow(trace, c);
  }

  ghost predicate Underway(config: Config, trace: seq<Call>) {
    AllJustified(config, trace) && PreflightDone(config, trace)
  }

  /** The entry of the CVM cluster after the first `n` logins. */
  function CvmEntry(config: Config, status: Status, n: nat): Entry
    requires config.cvms != [] && n <= |config.cvms|
  {
    Entry(config.cvms[0].address, CvmCluster, status, Addresses(config.cvms)[..n])
  }

  lemma NextCvmEntry(config: Config, n: nat)
    requires n < |config.cvms|
    ensures CvmEntry(config, ChangeAttempted, n + 1).verifiedCvms ==
      CvmEntry(config, ChangeAttempted, n).verifiedCvms + [config.cvms[n].address]
  {
    assert Addresses(config.cvms)[..n + 1] == Addresses(config.cvms)[..n] + [config.cvms[n].address];
  }

  ghost predicate LoggedIn(config: Config, trace: seq<Call>, n: nat)
    requires n <= |config.cvms|
  {
    forall j :: 0 <= j < n ==>
      Precedes(trace, ChangeCvms(config.cvms[0].address), CvmLogin(config.cvms[j].address, config.cvms[j].replacement))
  }

  lemma CvmReport(config: Config, trace: seq<Call>, status: Status, n: nat)
    requires config.cvms != [] && n <= |config.cvms| && (status == Verified ==> n == |config.cvms|)
    requires ChangesOf(trace) == [(config.cvms[0].address, CvmCluster)] && LoggedIn(config, trace, n)
    ensures HonestReport(config, trace, [CvmEntry(config, status, n)])
  {
    var addresses := Addresses(config.cvms);
    forall a | a in addresses[..n]
      ensures exists t :: t in config.cvms && t.address == a
                          && Precedes(trace, ChangeCvms(config.cvms[0].address), CvmLogin(a, t.replacement))
    {
      var j :| 0 <= j < n && addresses[j] == a;
      assert config.cvms[j] in config.cvms;
    }
    assert addresses[..|addresses|] == addresses;
  }

  /** Only the CVM cluster was changed, and the first `n` CVMs took the new password. */
  ghost predicate CvmsUnderway(config: Config, trace: seq<Call>, n: nat) {
    && config.cvms != [] && n <= |config.cvms|
    && Underway(config, trace) && ChangesOf(trace) == [(config.cvms[0].address, CvmCluster)]
    && (forall c :: c in trace ==> !c.ChangeIdrac?)
    && LoggedIn(config, trace, n)
  }

  /** A change that is reported was made. */
  lemma {:induction false} ReportedWasMade(trace: seq<Call>, address: string)
    requires (address, CvmCluster) in ChangesOf(trace)
    ensures ChangeCvms(address) in trace
  {
    if (address, CvmCluster) in ChangesOf(trace[..|trace| - 1]) {
      ReportedWasMade(trace[..|trace| - 1], address);
    }
  }

  lemma LoginFollowsChange(config: Config, trace: seq<Call>, n: nat)
    requires n < |config.cvms| && ChangesOf(trace) == [(config.cvms[0].address, CvmCluster)] && LoggedIn(config, trace, n)
    ensures LoggedIn(config, trace + [CvmLogin(config.cvms[n].address, config.cvms[n].replacement)], n + 1)
  {
    var change, login := ChangeCvms(config.cvms[0].address), CvmLogin(config.cvms[n].address, config.cvms[n].replacement);
    ReportedWasMade(trace, config.cvms[0].address);
    PrecedesNow(trace, change, login);
    forall j | 0 <= j < n
      ensures Precedes(trace + [login], change, CvmLogin(config.cvms[j].address, config.cvms[j].replacement))
    {
      PrecedesLonger(trace, trace + [login], change, CvmLogin(config.cvms[j].address, config.cvms[j].replacement));
    }
  }

  lemma OneMoreLogin(config: Config, trace: seq<Call>, n: nat)
    requires CvmsUnderway(config, trace, n) && n < |config.cvms|
    ensures CvmsUnderway(config, trace + [CvmLogin(config.cvms[n].address, config.cvms[n].replacement)], n + 1)
  {
    JustifiedRead(config, trace, CvmLogin(config.cvms[n].address, config.cvms[n].replacement));
    LoginFollowsChange(config, trace, n);
  }

  /** The logins with the new password at each CVM. */
  method LogIntoCvms(config: Config, ghost before: seq<Call>) returns (ok: bool, entry: Entry, ghost trace: seq<Call>)
    requires CvmsUnderway(config, before, 0)
    ensures Underway(config, trace) && HonestReport(config, trace, [entry])
    ensures forall c :: c in trace ==> !c.ChangeIdrac?
    ensures ok ==> entry == CvmEntry(config, Verified, |config.cvms|)
  {
    trace, entry := before, CvmEntry(config, ChangeAttempted, 0);
    for i := 0 to |config.cvms|
      invariant CvmsUnderway(config, trace, i)
      invariant entry == CvmEntry(config, ChangeAttempted, i)
    {
      var loggedIn: bool := *;
      if !loggedIn {
        CvmReport(config, trace, ChangeAttempted, i);
        return false, entry, trace;
      }
      OneMoreLogin(config, trace, i);
      trace := trace + [CvmLogin(config.cvms[i].address, config.cvms[i].replacement)];
      entry := entry.(verifiedCvms := entry.verifiedCvms + [config.cvms[i].address]);
      NextCvmEntry(config, i);
    }
    entry := entry.(status := Verified);
    CvmReport(config, trace, Verified, |config.cvms|);
    ok := true;
  }

  /** The one change of all CVMs, and a login at each of them. */
  method RotateCvms(config: Config, ghost before: seq<Call>) returns (ok: bool, results: seq<Entry>, ghost trace: seq<Call>)
    requires config.cvms != [] && Underway(config, before)
    requires ChangesOf(before) == [] && forall c :: c in before ==> !Changes(c)
    ensures Underway(config, trace) && HonestReport(config, trace, results)
    ensures forall c :: c in trace ==> !c.ChangeIdrac?
    ensures ok ==> results == [CvmEntry(config, Verified, |config.cvms|)]
  {
    ok, results, trace := false, [], before;
    var cancelled: bool := *;
    if cancelled {
      return;
    }
    var node := config.cvms[0];
    results := [Entry(node.address, CvmCluster, ChangeAttempted, [])];
    trace := before + [ChangeCvms(node.address)];
    JustifiedChange(config, before, ChangeCvms(node.address));
    ChangesGrow(before, ChangeCvms(node.address));
    CvmReport(config, trace, ChangeAttempted, 0);
    assert results == [CvmEntry(config, ChangeAttempted, 0)];
    var changed: bool := *;
    if !changed {
      return;
    }
    for waited := 0 to 10 {
      cancelled := *;
      if cancelled {
        return;
      }
    }
    var entry;
    ok, entry, trace := LogIntoCvms(config, trace);
    results := [entry];
  }

  /** More calls keep what is proved. */
  lemma ProofsKeep(config: Config, trace: seq<Call>, longer: seq<Call>, results: seq<Entry>)
    requires trace <= longer
    requires forall i :: 0 <= i < |results| ==> EntryProved(config, trace, results[i])
    ensures forall i :: 0 <= i < |results| ==> EntryProved(config, longer, results[i])
  {
    forall i | 0 <= i < |results|
      ensures EntryProved(config, longer, results[i])
    {
      var e := results[i];
      forall a | a in e.verifiedCvms
        ensures exists t :: t in config.cvms && t.address == a && Precedes(longer, ChangeCvms(e.target), CvmLogin(a, t.replacement))
      {
        var t :| t in config.cvms && t.address == a && Precedes(trace, ChangeCvms(e.target), CvmLogin(a, t.replacement));
        PrecedesLonger(trace, longer, ChangeCvms(e.target), CvmLogin(a, t.replacement));
      }
      if e.status == Verified && e.operation == Idrac {
        var t :| t in config.idracs && t.address == e.target
                 && Precedes(trace, ChangeIdrac(e.target), IdracLogin(e.target, t.replacement));
        PrecedesLonger(trace, longer, ChangeIdrac(e.target), IdracLogin(e.target, t.replacement));
      }
    }
  }

  ghost predicate AllVerified(results: seq<Entry>) {
    forall i :: 0 <= i < |results| ==> results[i].status == Verified
  }

  lemma AttemptReport(config: Config, trace: seq<Call>, results: seq<Entry>, address: string)
    requires HonestReport(config, trace, results) && AllVerified(results)
    ensures HonestReport(config, trace + [ChangeIdrac(address)], results + [Entry(address, Idrac, ChangeAttempted, [])])
  {
    var longer := trace + [ChangeIdrac(address)];
    ChangesGrow(trace, ChangeIdrac(address));
    ProofsKeep(config, trace, longer, results);
    assert Reported(results + [Entry(address, Idrac, ChangeAttempted, [])]) == Reported(results) + [(address, Idrac)];
  }

  lemma LoginReport(config: Config, before: seq<Call>, results: seq<Entry>, node: Target)
    requires var trace := before + [ChangeIdrac(node.address)];
      HonestReport(config, trace, results + [Entry(node.address, Idrac, ChangeAttempted, [])]) && AllVerified(results)
    requires node in config.idracs
    ensures var trace := before + [ChangeIdrac(node.address), IdracLogin(node.address, node.replacement)];
      HonestReport(config, trace, results + [Entry(node.address, Idrac, Verified, [])])
  {
    var change, login := ChangeIdrac(node.address), IdracLogin(node.address, node.replacement);
    var trace, longer := before + [change], before + [change, login];
    var attempted := results + [Entry(node.address, Idrac, ChangeAttempted, [])];
    var verified := results + [Entry(node.address, Idrac, Verified, [])];
    assert longer == trace + [login];
    ChangesGrow(trace, login);
    forall i | 0 <= i < |results|
      ensures EntryProved(config, trace, results[i])
    {
      assert attempted[i] == results[i];
    }
    ProofsKeep(config, trace, longer, results);
    PrecedesNow(trace, change, login);
    assert Reported(verified) == Reported(attempted);
  }

  /** The change of one iDRAC, and then the login that verifies it. */
  lemma IdracChanged(config: Config, before: seq<Call>, results: seq<Entry>, node: Target)
    requires Underway(config, before) && HonestReport(config, before, results) && AllVerified(results)
    requires ChangeIdrac(node.address) !in before
    ensures var trace := before + [ChangeIdrac(node.address)];
      Underway(config, trace) && HonestReport(config, trace, results + [Entry(node.address, Idrac, ChangeAttempted, [])])
  {
    JustifiedChange(config, before, ChangeIdrac(node.address));
    AttemptReport(config, before, results, node.address);
  }

  lemma IdracVerified(config: Config, before: seq<Call>, results: seq<Entry>, node: Target)
    requires Underway(config, before) && HonestReport(config, before, results) && AllVerified(results)
    requires node in config.idracs && ChangeIdrac(node.address) !in before
    ensures var trace := before + [ChangeIdrac(node.address), IdracLogin(node.address, node.replacement)];
      Underway(config, trace) && HonestReport(config, trace, results + [Entry(node.address, Idrac, Verified, [])])
  {
    IdracChanged(config, before, results, node);
    var trace := before + [ChangeIdrac(node.address)];
    JustifiedRead(config, trace, IdracLogin(node.address, node.replacement));
    LoginReport(config, before, results, node);
    assert trace + [IdracLogin(node.address, node.replacement)]
      == before + [ChangeIdrac(node.address), IdracLogin(node.address, node.replacement)];
  }

  /** One iDRAC: the change, then a login with the replacement that must show the account. */
  method RotateIdrac(config: Config, node: Target, results: seq<Entry>, ghost before: seq<Call>)
    returns (ok: bool, reported: seq<Entry>, ghost trace: seq<Call>)
    requires Underway(config, before) && HonestReport(config, before, results) && AllVerified(results)
    requires node in config.idracs && ChangeIdrac(node.address) !in before
    ensures Underway(config, trace) && HonestReport(config, trace, reported)
    ensures ok ==> reported == results + [Entry(node.address, Idrac, Verified, [])]
    ensures forall c :: c in trace && c !in before ==> c == ChangeIdrac(node.address) || !Changes(c)
  {
    ok, reported, trace := false, results, before;
    var cancelled: bool := *;
    if cancelled {
      return;
    }
    reported := results + [Entry(node.address, Idrac, ChangeAttempted, [])];
    trace := before + [ChangeIdrac(node.address)];
    IdracChanged(config, before, results, node);
    var patched: bool := *;
    var shown: bool := *;
    if !patched || !shown {
      return;
    }
    IdracVerified(config, before, results, node);
    trace := before + [ChangeIdrac(node.address), IdracLogin(node.address, node.replacement)];
    reported := results + [Entry(node.address, Idrac, Verified, [])];
    ok := true;
  }

  method RotateIdracs(config: Config, done: seq<Entry>, ghost before: seq<Call>)
    returns (ok: bool, results: seq<Entry>, ghost trace: seq<Call>)
    requires ValidIntent(config) && Underway(config, before) && HonestReport(config, before, done) && AllVerified(done)
    requires forall c :: c in before ==> !c.ChangeIdrac?
    ensures Underway(config, trace) && HonestReport(config, trace, results)
    ensures ok ==> results == done + IdracEntries(config.idracs)
  {
    ok, results, trace := true, done, before;
    for i := 0 to |config.idracs|
      invariant Underway(config, trace) && HonestReport(config, trace, results) && AllVerified(results)
      invariant results == done + IdracEntries(config.idracs)[..i]
      invariant forall j :: i <= j < |config.idracs| ==> ChangeIdrac(config.idracs[j].address) !in trace
    {
      ok, results, trace := RotateIdrac(config, config.idracs[i], results, trace);
      if !ok {
        return;
      }
      assert IdracEntries(config.idracs)[..i + 1] == IdracEntries(config.idracs)[..i] + [IdracEntries(config.idracs)[i]];
    }
    assert IdracEntries(config.idracs)[..|config.idracs|] == IdracEntries(config.idracs);
  }

  lemma {:induction false} ReadsChangeNothing(trace: seq<Call>)
    requires forall c :: c in trace ==> !Changes(c)
    ensures ChangesOf(trace) == []
  {
    if trace != [] {
      assert trace[|trace| - 1] in trace;
      assert forall c :: c in trace[..|trace| - 1] ==> c in trace;
      ReadsChangeNothing(trace[..|trace| - 1]);
    }
  }

  lemma ReadsAreJustified(config: Config, trace: seq<Call>)
    requires forall c :: c in trace ==> !Changes(c)
    ensures AllJustified(config, trace)
  {
    assert forall k :: 0 <= k < |trace| ==> trace[k] in trace;
  }

  lemma NothingToReport(config: Config, trace: seq<Call>)
    requires forall c :: c in trace ==> !Changes(c)
    ensures AllJustified(config, trace) && ChangesOf(trace) == [] && HonestReport(config, trace, [])
  {
    ReadsChangeNothing(trace);
    ReadsAreJustified(config, trace);
  }

  /** The changes of both groups, after the preflight. */
  method RotateAll(config: Config, ghost before: seq<Call>) returns (ok: bool, results: seq<Entry>, ghost trace: seq<Call>)
    requires ValidIntent(config) && PreflightDone(config, before) && forall c :: c in before ==> !Changes(c)
    ensures Underway(config, trace) && HonestReport(config, trace, results)
    ensures ok ==> results == Complete(config)
  {
    NothingToReport(config, before);
    if config.cvms == [] {
      ok, results, trace := RotateIdracs(config, [], before);
      return;
    }
    ok, results, trace := RotateCvms(config, before);
    if ok {
      assert Addresses(config.cvms)[..|config.cvms|] == Addresses(config.cvms);
      ok, results, trace := RotateIdracs(config, results, trace);
    }
  }

  /** `execute`, for a validated intent: the whole preflight precedes every change,
      no target is changed twice, the report is honest on every exit, and a full
      success reports exactly one verified result for the CVM cluster and one per
      iDRAC, in order. */
  method Execute(config: Config, dryRun: bool) returns (ok: bool, results: seq<Entry>, ghost trace: seq<Call>)
    requires ValidIntent(config)
    ensures AllJustified(config, trace) && HonestReport(config, trace, results)
    ensures ok && !dryRun ==> results == Complete(config)
    ensures dryRun ==> results == [] && ChangesOf(trace) == []
    ensures ok ==> PreflightDone(config, trace)
  {
    results := [];
    ok, trace := Preflight(config);
    NothingToReport(config, trace);
    if !ok || dryRun {
      return;
    }
    ok, results, trace := RotateAll(config, trace);
  }

  /** No target is changed twice. */
  lemma ChangedOnce(config: Config, trace: seq<Call>, i: nat, j: nat)
    requires AllJustified(config, trace) && i < j < |trace| && Changes(trace[i]) && Changes(trace[j])
    ensures trace[i] != trace[j]
    ensures PreflightDone(config, trace[..i])
  {
    assert Justified(config, trace[..j], trace[j]);
    assert Justified(config, trace[..i], trace[i]);
    assert trace[..j][i] == trace[i];
  }
}
