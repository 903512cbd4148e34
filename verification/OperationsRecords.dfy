/**
 The operations store: cluster records with an optimistic revision, and PE
 observations that were collected without the lock.
 */
module OperationsRecords {
  import opened Prelude

  type Id = string

  datatype Node = Node(serial: string, hostIp: string, cvmIp: string)

  /** The five fields a health collection is made for. */
  datatype Baseline = Baseline(name: string, endpoint: string, credential: string, uuid: string, nodes: seq<Node>)

  datatype References = References(datacenter: string, files: seq<string>, pipeline: string, profile: string, owner: string)

  datatype HealthStatus = Good | Unknown | NotGood

  datatype Collection = Completed | CollectionFailed | NotAttempted

  /** A timestamp text; `at` is None when it is invalid or has no timezone. */
  datatype Stamp = Stamp(text: string, at: Option<real>)

  /** What a PE collection returns. */
  datatype Reading = Reading(collectedAt: Stamp, status: HealthStatus, collection: Collection)

  /** A stored reading; `of` is the baseline of the row as it was when the collection
      began (the label is the model's, the stored record does not carry it). */
  datatype Observation = Observation(reading: Reading, of: Baseline)

  datatype Cluster = Cluster(id: Id, baseline: Baseline, references: References, createdAt: Stamp, updatedAt: Stamp,
                             observation: Option<Observation>)

  datatype Outcome = Saved(id: Id) | Invalid | Conflict | Missing | Busy

  const CLUSTER_LIMIT := 1000

  /******* Records *******/

  function Find(clusters: seq<Cluster>, id: Id): Option<Cluster> {
    if clusters == [] then None else if clusters[0].id == id then Some(clusters[0]) else Find(clusters[1..], id)
  }

  function Without(clusters: seq<Cluster>, id: Id): seq<Cluster> {
    if clusters == [] then []
    else if clusters[0].id == id then Without(clusters[1..], id)
    else [clusters[0]] + Without(clusters[1..], id)
  }

  predicate Apart(a: Cluster, b: Cluster) {
    && a.id != b.id
    && a.baseline.endpoint != b.baseline.endpoint
    && (a.baseline.uuid != "" ==> a.baseline.uuid != b.baseline.uuid)
  }

  /** Ids, endpoints and nonempty UUIDs are unique. */
  predicate Unique(clusters: seq<Cluster>) {
    clusters == [] || ((forall r :: r in clusters[1..] ==> Apart(clusters[0], r)) && Unique(clusters[1..]))
  }

  predicate ObservedForItself(r: Cluster) {
    r.observation.Some? ==> r.observation.value.of == r.baseline
  }

  /** Every observation was collected for the row's current baseline. */
  predicate Observed(clusters: seq<Cluster>) {
    forall r :: r in clusters ==> ObservedForItself(r)
  }

  predicate Sound(clusters: seq<Cluster>) {
    Unique(clusters) && Observed(clusters)
  }

  /** The readable form of `Unique`. */
  lemma {:induction false} UniqueMeansDistinct(clusters: seq<Cluster>, i: nat, j: nat)
    requires Unique(clusters) && i < j < |clusters|
    ensures clusters[i].id != clusters[j].id
    ensures clusters[i].baseline.endpoint != clusters[j].baseline.endpoint
    ensures clusters[i].baseline.uuid == clusters[j].baseline.uuid ==> clusters[i].baseline.uuid == ""
  {
    if i == 0 {
      assert clusters[1..][j - 1] == clusters[j];
      assert Apart(clusters[0], clusters[1..][j - 1]);
    } else {
      UniqueMeansDistinct(clusters[1..], i - 1, j - 1);
    }
  }

  lemma {:induction false} FindIsMember(clusters: seq<Cluster>, id: Id)
    ensures Find(clusters, id).Some? ==> Find(clusters, id).value in clusters && Find(clusters, id).value.id == id
    ensures Find(clusters, id).None? ==> forall r :: r in clusters ==> r.id != id
  {
    if clusters != [] {
      FindIsMember(clusters[1..], id);
    }
  }

  lemma {:induction false} WithoutRemovesOnlyId(clusters: seq<Cluster>, id: Id)
    ensures forall r :: r in Without(clusters, id) <==> r in clusters && r.id != id
    ensures Unique(clusters) ==> Unique(Without(clusters, id))
  {
    if clusters != [] {
      WithoutRemovesOnlyId(clusters[1..], id);
      if clusters[0].id != id {
        assert Without(clusters, id)[1..] == Without(clusters[1..], id);
      }
    }
  }

  lemma {:induction false} AppendKeepsUnique(clusters: seq<Cluster>, row: Cluster)
    requires Unique(clusters) && forall r :: r in clusters ==> Apart(r, row)
    ensures Unique(clusters + [row])
  {
    if clusters != [] {
      AppendKeepsUnique(clusters[1..], row);
      assert (clusters + [row])[1..] == clusters[1..] + [row];
    }
  }

  datatype Proposed = Proposed(baseline: Baseline, references: References)

  predicate EndpointTaken(clusters: seq<Cluster>, identity: Option<Id>, endpoint: string) {
    exists r :: r in clusters && Some(r.id) != identity && r.baseline.endpoint == endpoint
  }

  predicate UuidTaken(clusters: seq<Cluster>, identity: Option<Id>, uuid: string) {
    uuid != "" && exists r :: r in clusters && Some(r.id) != identity && r.baseline.uuid == uuid
  }

  function Earlier(clusters: seq<Cluster>, identity: Option<Id>): Option<Cluster> {
    if identity.Some? then Find(clusters, identity.value) else None
  }

  /** Why an edit is refused, in the order of the checks; None when it is saved. */
  function Refusal(clusters: seq<Cluster>, current: bool, proposed: Proposed, identity: Option<Id>): Option<Outcome> {
    if !current then Some(Conflict)
    else if identity.Some? && Earlier(clusters, identity).None? then Some(Missing)
    else if EndpointTaken(clusters, identity, proposed.baseline.endpoint) then Some(Invalid)
    else if UuidTaken(clusters, identity, proposed.baseline.uuid) then Some(Invalid)
    else if |clusters| >= CLUSTER_LIMIT && identity.None? then Some(Invalid)
    else None
  }

  /** The edited row: its observation survives only an unchanged baseline. */
  function Edited(earlier: Option<Cluster>, proposed: Proposed, id: Id, now: Stamp): Cluster {
    Cluster(id, proposed.baseline, proposed.references,
            if earlier.Some? then earlier.value.createdAt else now, now,
            if earlier.Some? && earlier.value.baseline == proposed.baseline then earlier.value.observation else None)
  }

  function Replaced(clusters: seq<Cluster>, proposed: Proposed, identity: Option<Id>, newId: Id, now: Stamp): seq<Cluster> {
    var id := if identity.Some? then identity.value else newId;
    (if identity.Some? then Without(clusters, id) else clusters) + [Edited(Earlier(clusters, identity), proposed, id, now)]
  }

  /** An edit that is not refused keeps identifiers unique and observations matched. */
  lemma EditKeepsSound(clusters: seq<Cluster>, proposed: Proposed, identity: Option<Id>, newId: Id, now: Stamp)
    requires Sound(clusters) && Refusal(clusters, true, proposed, identity).None?
    requires identity.None? ==> forall r :: r in clusters ==> r.id != newId
    ensures Sound(Replaced(clusters, proposed, identity, newId, now))
  {
    var id := if identity.Some? then identity.value else newId;
    var rest := if identity.Some? then Without(clusters, id) else clusters;
    var row := Edited(Earlier(clusters, identity), proposed, id, now);
    WithoutRemovesOnlyId(clusters, id);
    if identity.Some? {
      FindIsMember(clusters, id);
    }
    forall r | r in rest
      ensures Apart(r, row)
    {
      assert r in clusters && Some(r.id) != identity;
    }
    AppendKeepsUnique(rest, row);
  }

  /******* Collections *******/

  /** Stores a reading that was collected for baseline `of` in the row of that id. */
  function WithReading(clusters: seq<Cluster>, id: Id, of: Baseline, reading: Reading): seq<Cluster> {
    if clusters == [] then []
    else if clusters[0].id == id then [clusters[0].(observation := Some(Observation(reading, of)))] + clusters[1..]
    else [clusters[0]] + WithReading(clusters[1..], id, of, reading)
  }

  lemma FirstReading(clusters: seq<Cluster>, of: Baseline, reading: Reading)
    requires Sound(clusters) && clusters != []
    ensures forall k :: 1 <= k < |clusters| ==> clusters[k].id != clusters[0].id
    ensures Sound([clusters[0].(observation := Some(Observation(reading, of)))] + clusters[1..]) <==> clusters[0].baseline == of
  {
    var stored := [clusters[0].(observation := Some(Observation(reading, of)))] + clusters[1..];
    forall k | 1 <= k < |clusters| ensures clusters[k].id != clusters[0].id {
      assert clusters[1..][k - 1] == clusters[k] && Apart(clusters[0], clusters[1..][k - 1]);
    }
    assert stored[1..] == clusters[1..];
    assert ObservedForItself(stored[0]) <==> clusters[0].baseline == of;
    assert forall r :: r in stored <==> r == stored[0] || r in clusters[1..];
  }

  /** Storing a reading changes the observation of its row and nothing else: no other
      row, no other field, no order. The store stays sound if and only if the row still
      has the baseline the reading was collected for. */
  lemma {:induction false} ReadingKeepsSound(clusters: seq<Cluster>, id: Id, of: Baseline, reading: Reading)
    requires Sound(clusters)
    ensures var stored := WithReading(clusters, id, of, reading);
      && |stored| == |clusters|
      && forall k :: 0 <= k < |clusters| ==>
           stored[k] == if clusters[k].id == id then clusters[k].(observation := Some(Observation(reading, of))) else clusters[k]
    ensures Sound(WithReading(clusters, id, of, reading)) <==>
      (Find(clusters, id).Some? ==> Find(clusters, id).value.baseline == of)
  {
    if clusters != [] {
      var stored := WithReading(clusters, id, of, reading);
      assert forall r :: r in clusters[1..] ==> r in clusters;
      ReadingKeepsSound(clusters[1..], id, of, reading);
      if clusters[0].id == id {
        FirstReading(clusters, of, reading);
      } else {
        var rest := WithReading(clusters[1..], id, of, reading);
        assert stored[1..] == rest && stored[0] == clusters[0];
        assert forall k :: 0 <= k < |rest| ==> Apart(clusters[0], clusters[1..][k]);
        assert forall r :: r in rest ==> Apart(stored[0], r);
        RestIsSound(stored);
      }
    }
  }

  lemma RestIsSound(clusters: seq<Cluster>)
    requires clusters != [] && ObservedForItself(clusters[0])
    requires forall r :: r in clusters[1..] ==> Apart(clusters[0], r)
    ensures Sound(clusters) <==> Sound(clusters[1..])
  {
    assert forall r :: r in clusters <==> r == clusters[0] || r in clusters[1..];
  }
}
