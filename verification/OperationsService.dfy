/**
 The operations service as an object. Each method is one locked section and is
 proved equal to the step of the same kind, so the object is always in the state
 its history of requests leads to and the results about histories hold of it; the
 search, filter and fold loops are the source's own.
 */
module OperationsServiceModel {
  import opened Prelude
  import opened OperationsRecords
  import opened OperationsAttention
  import opened OperationsHistory

  lemma LongerHistory(before: seq<Action>, actions: seq<Action>)
    ensures var earlier, later := After(before).store, After(before + actions).store;
      && Sound(later.clusters) && later.revision >= earlier.revision
      && (later.revision == earlier.revision ==> later == earlier)
  {
    RecordsStaySound(before + actions);
    assert (before + actions)[..|before|] == before;
    RevisionOnlyGrows(before + actions, |before|);
  }

  class OperationsService {
    var revision: nat
    var clusters: seq<Cluster>
    var attention: Attention
    var collecting: map<Id, Cluster>
    ghost var log: seq<Action>

    ghost function State(): World
      reads this
    {
      World(Store(revision, clusters, attention), collecting)
    }

    /** The object is in the state its history of requests leads to. */
    ghost predicate Valid()
      reads this
    {
      State() == After(log)
    }

    constructor ()
      ensures Valid() && log == []
    {
      revision, clusters, attention, collecting, log := 0, [], map[], map[], [];
    }

    method FindRow(id: Id) returns (row: Option<Cluster>)
      ensures row == Find(clusters, id)
    {
      for k := 0 to |clusters|
        invariant Find(clusters, id) == Find(clusters[k..], id)
      {
        if clusters[k].id == id {
          return Some(clusters[k]);
        }
        assert clusters[k..][1..] == clusters[k + 1..];
      }
      row := None;
    }

    /** Whether another row has the endpoint or the UUID. */
    method Taken(identity: Option<Id>, baseline: Baseline) returns (taken: bool)
      ensures taken <==> EndpointTaken(clusters, identity, baseline.endpoint) || UuidTaken(clusters, identity, baseline.uuid)
    {
      for k := 0 to |clusters|
        invariant forall r :: r in clusters[..k] && Some(r.id) != identity ==>
          r.baseline.endpoint != baseline.endpoint && (baseline.uuid == "" || r.baseline.uuid != baseline.uuid)
      {
        var r := clusters[k];
        if Some(r.id) != identity && (r.baseline.endpoint == baseline.endpoint || (baseline.uuid != "" && r.baseline.uuid == baseline.uuid)) {
          assert r in clusters;
          return true;
        }
        assert clusters[..k + 1] == clusters[..k] + [r];
      }
      assert clusters[..|clusters|] == clusters;
      taken := false;
    }

    method Others(id: Id) returns (rest: seq<Cluster>)
      ensures rest == Without(clusters, id)
    {
      rest := [];
      for k := |clusters| downto 0
        invariant rest == Without(clusters[k..], id)
      {
        assert clusters[k..][1..] == clusters[k + 1..];
        if clusters[k].id != id {
          rest := [clusters[k]] + rest;
        }
      }
      assert clusters[0..] == clusters;
    }

    /** `record`; the new id of an added row is fresh. */
    method SaveRecord(seen: int, proposed: Proposed, identity: Option<Id>, newId: Id, now: Stamp) returns (outcome: Outcome)
      requires identity.None? ==> forall r :: r in clusters ==> r.id != newId
      modifies this`revision, this`clusters
      ensures State() == Step(old(State()), Edit(seen, proposed, identity, newId, now))
      ensures var refusal := Refusal(old(clusters), seen == old(revision), proposed, identity);
        outcome == if refusal.Some? then refusal.value else Saved(if identity.Some? then identity.value else newId)
    {
      if seen != revision {
        return Conflict;
      }
      var earlier: Option<Cluster> := None;
      if identity.Some? {
        earlier := FindRow(identity.value);
        if earlier.None? {
          return Missing;
        }
      }
      var taken := Taken(identity, proposed.baseline);
      if taken || (|clusters| >= CLUSTER_LIMIT && earlier.None?) {
        return Invalid;
      }
      var id := if identity.Some? then identity.value else newId;
      var row := Cluster(id, proposed.baseline, proposed.references, if earlier.Some? then earlier.value.createdAt else now, now, None);
      if earlier.Some? && earlier.value.baseline == row.baseline {
        row := row.(observation := earlier.value.observation);
      }
      var rest := clusters;
      if identity.Some? {
        rest := Others(id);
      }
      clusters := rest + [row];
      revision := revision + 1;
      outcome := Saved(id);
    }

    /** `observe` before the unlocked collection. */
    method BeginObserve(id: Id) returns (outcome: Outcome)
      modifies this`collecting
      ensures State() == Step(old(State()), BeginCollection(id))
      ensures outcome == if Find(clusters, id).None? then Missing else if id in old(collecting) then Busy else Saved(id)
    {
      var row := FindRow(id);
      if row.None? {
        return Missing;
      }
      if id in collecting {
        return Busy;
      }
      collecting := collecting[id := row.value];
      outcome := Saved(id);
    }

    /** `observe` after it; None stands for an exception of the collection. */
    method EndObserve(id: Id, reading: Option<Reading>) returns (stored: bool)
      requires id in collecting
      modifies this`revision, this`clusters, this`collecting
      ensures State() == Step(old(State()), EndCollection(id, reading))
      ensures stored <==> reading.Some? && Find(old(clusters), id) == Some(old(collecting)[id])
    {
      var snapshot := collecting[id];
      var row := FindRow(id);
      collecting := collecting - {id};
      if reading.None? || row != Some(snapshot) {
        return false;
      }
      StoreReading(id, snapshot.baseline, reading.value);
      revision := revision + 1;
      stored := true;
    }

    method StoreReading(id: Id, of: Baseline, reading: Reading)
      modifies this`clusters
      ensures clusters == WithReading(old(clusters), id, of, reading)
    {
      for k := 0 to |clusters|
        invariant clusters == old(clusters)
        invariant WithReading(clusters, id, of, reading) == clusters[..k] + WithReading(clusters[k..], id, of, reading)
      {
        if clusters[k].id == id {
          assert clusters == clusters[..k] + [clusters[k]] + clusters[k + 1..];
          clusters := clusters[k := clusters[k].(observation := Some(Observation(reading, of)))];
          return;
        }
        assert clusters[k..][1..] == clusters[k + 1..];
        assert clusters[..k + 1] == clusters[..k] + [clusters[k]];
      }
    }

    method CollectSources(jobs: seq<JobView>, runs: seq<RunView>, reference: real) returns (sources: seq<Source>)
      ensures sources == Sources(jobs, clusters, runs, reference)
    {
      sources := [];
      for k := 0 to |jobs|
        invariant sources == JobSources(jobs[..k])
      {
        assert jobs[..k + 1][..k] == jobs[..k];
        if jobs[k].failed {
          sources := sources + [JobSource(jobs[k])];
        }
      }
      assert jobs[..|jobs|] == jobs;
      for k := 0 to |clusters|
        invariant sources == JobSources(jobs) + HealthSources(clusters[..k], reference)
      {
        assert clusters[..k + 1][..k] == clusters[..k];
        if NeedsReview(clusters[k], reference) {
          sources := sources + [HealthSource(clusters[k], reference)];
        }
      }
      assert clusters[..|clusters|] == clusters;
      for k := 0 to |runs|
        invariant sources == JobSources(jobs) + HealthSources(clusters, reference) + RunSources(runs[..k])
      {
        assert runs[..k + 1][..k] == runs[..k];
        if runs[k].attention {
          sources := sources + [RunSource(runs[k])];
        }
      }
      assert runs[..|runs|] == runs;
    }

    /** One source against the list; an item is changed in place. */
    method Note(list: Attention, source: Source, now: Stamp) returns (view: Attention, changed: bool)
      ensures view == Noted(list, source, now)
      ensures changed <==> !Notes(list, source)
    {
      view, changed := list, true;
      if source.id !in list {
        view := list[source.id := Item(source, Open, "", "", [], now, now)];
        return;
      }
      var previous := list[source.id];
      if previous.source.version != source.version {
        view := list[source.id := previous.(source := source, status := Open, updatedAt := now)];
      } else if previous.source.title != source.title || previous.source.detail != source.detail {
        view := list[source.id := previous.(source := previous.source.(title := source.title, detail := source.detail))];
      } else {
        changed := false;
      }
    }

    method NoteAll(sources: seq<Source>, now: Stamp) returns (view: Attention, changed: bool)
      ensures view == AllNoted(attention, sources, now) && changed == Changes(attention, sources, now)
    {
      changed, view := false, attention;
      for k := 0 to |sources|
        invariant view == AllNoted(attention, sources[..k], now)
        invariant changed == Changes(attention, sources[..k], now)
      {
        assert sources[..k + 1][..k] == sources[..k];
        var noted;
        view, noted := Note(view, sources[k], now);
        changed := changed || noted;
      }
      assert sources[..|sources|] == sources;
    }

    /** `summary`: the view shows the new list even when it may not be stored. */
    method Summary(jobs: seq<JobView>, runs: seq<RunView>, reference: real, now: Stamp, writable: bool) returns (view: Attention)
      modifies this`revision, this`attention
      ensures State() == Step(old(State()), Summarise(jobs, runs, reference, now, writable))
      ensures view == AllNoted(old(attention), Sources(jobs, clusters, runs, reference), now)
    {
      var sources := CollectSources(jobs, runs, reference);
      var changed;
      view, changed := NoteAll(sources, now);
      if changed && writable {
        attention := view;
        revision := revision + 1;
      }
    }

    /** `attention` */
    method Review(id: string, seen: int, review: OperationsAttention.Review) returns (outcome: Outcome)
      modifies this`revision, this`attention
      ensures State() == Step(old(State()), Decide(id, seen, review))
      ensures outcome ==
        if !Admissible(review) then Invalid else if seen != old(revision) then Conflict
        else if id !in old(attention) then Missing else Saved(id)
    {
      if (review.status == Acknowledged && review.owner == "") || (review.status != Open && review.notes == "") {
        return Invalid;
      }
      if seen != revision {
        return Conflict;
      }
      if id !in attention {
        return Missing;
      }
      var item := attention[id];
      item := item.(reviews := item.reviews + [review]);
      if |item.reviews| > KEPT_REVIEWS {
        item := item.(reviews := item.reviews[|item.reviews| - KEPT_REVIEWS..]);
      }
      item := item.(status := review.status, owner := review.owner, notes := review.notes, updatedAt := review.at);
      attention := attention[id := item];
      revision := revision + 1;
      outcome := Saved(id);
    }

    /** One request, or a restart, changes the object as the step of that kind; an edit
        that would reuse an id does not arise. */
    method Perform(a: Action)
      modifies this`revision, this`clusters, this`attention, this`collecting
      ensures State() == Step(old(State()), a)
    {
      match a
      case Edit(seen, proposed, identity, newId, now) =>
        if identity.Some? || forall r :: r in clusters ==> r.id != newId {
          var _ := SaveRecord(seen, proposed, identity, newId, now);
        }
      case BeginCollection(id) =>
        var _ := BeginObserve(id);
      case EndCollection(id, reading) =>
        if id in collecting {
          var _ := EndObserve(id, reading);
        }
      case Summarise(jobs, runs, reference, now, writable) =>
        var _ := Summary(jobs, runs, reference, now, writable);
      case Decide(id, seen, review) =>
        var _ := Review(id, seen, review);
      case Restart =>
        collecting := map[];
    }

    method Take(a: Action)
      requires Valid()
      modifies this
      ensures Valid() && log == old(log) + [a]
    {
      Perform(a);
      log := log + [a];
      assert log[..|log| - 1] == old(log);
    }

    /** Whatever requests are served and however collections overlap with them, the
        records stay unique and their observations belong to their baselines. */
    method Serve(actions: seq<Action>)
      requires Valid()
      modifies this
      ensures Valid() && log == old(log) + actions
      ensures Sound(clusters) && revision >= old(revision)
      ensures revision == old(revision) ==> clusters == old(clusters) && attention == old(attention)
    {
      for k := 0 to |actions|
        invariant Valid() && log == old(log) + actions[..k]
      {
        Take(actions[k]);
      }
      LongerHistory(old(log), actions);
    }
  }
}
