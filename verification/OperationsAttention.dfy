/**
 The attention list: what the state of jobs, observations and recovery runs asks
 an operator to review, and how a summary folds it into the retained reviews.
 */
module OperationsAttention {
  import opened Prelude
  import opened OperationsRecords

  /******* Diagnostics *******/

  datatype EvidenceState = NotChecked | InvalidTimestamp | ClockMismatch | FailedCollection | Expired | Incomplete | Fresh

  const TTL_SECONDS: real := 900.0

  function Age(reading: Reading, reference: real): Option<real> {
    if reading.collectedAt.at.Some? then Some(reference - reading.collectedAt.at.value) else None
  }

  /** `observation_diagnostics` */
  function Diagnosed(observation: Option<Observation>, reference: real): EvidenceState {
    if observation.None? then NotChecked
    else
      var reading := observation.value.reading;
      var age := Age(reading, reference);
      if age.None? then InvalidTimestamp
      else if age.value < 0.0 then ClockMismatch
      else if reading.collection == CollectionFailed then FailedCollection
      else if age.value > TTL_SECONDS then Expired
      else if reading.collection == NotAttempted then Incomplete
      else Fresh
  }

  /******* Sources *******/

  datatype Link = JobLink(job: string) | ClusterLink(cluster: Id) | RunLink(run: string)

  datatype Source = Source(id: string, link: Link, title: string, detail: string, version: string)

  datatype JobView = JobView(id: string, failed: bool, workflow: string)

  datatype RunView = RunView(id: string, attention: bool, cluster: string, updatedAt: string)

  function JobSource(job: JobView): Source {
    Source("job-" + job.id, JobLink(job.id), "Job requires review", job.workflow, job.id)
  }

  function HealthTitle(state: EvidenceState): string {
    match state
    case Expired => "PE evidence expired"
    case FailedCollection => "PE collection failed"
    case ClockMismatch => "PE evidence clock mismatch"
    case InvalidTimestamp => "PE evidence timestamp invalid"
    case _ => "PE observation needs review"
  }

  predicate NeedsReview(row: Cluster, reference: real) {
    row.observation.Some? && (row.observation.value.reading.status != Good || Diagnosed(row.observation, reference) != Fresh)
  }

  function HealthSource(row: Cluster, reference: real): Source
    requires row.observation.Some?
  {
    var reading := row.observation.value.reading;
    var age := Age(reading, reference);
    var stale := age.Some? && age.value > TTL_SECONDS;
    Source("health-" + row.id, ClusterLink(row.id), HealthTitle(Diagnosed(row.observation, reference)), row.baseline.name,
           reading.collectedAt.text + if stale then "-stale" else "")
  }

  function RunSource(run: RunView): Source {
    Source("recovery-" + run.id, RunLink(run.id), "Recovery requires reconciliation", run.cluster, run.updatedAt)
  }

  function JobSources(jobs: seq<JobView>): seq<Source> {
    if jobs == [] then []
    else
      var last := jobs[|jobs| - 1];
      JobSources(jobs[..|jobs| - 1]) + if last.failed then [JobSource(last)] else []
  }

  function HealthSources(rows: seq<Cluster>, reference: real): seq<Source> {
    if rows == [] then []
    else
      var last := rows[|rows| - 1];
      HealthSources(rows[..|rows| - 1], reference) + if NeedsReview(last, reference) then [HealthSource(last, reference)] else []
  }

  function RunSources(runs: seq<RunView>): seq<Source> {
    if runs == [] then []
    else
      var last := runs[|runs| - 1];
      RunSources(runs[..|runs| - 1]) + if last.attention then [RunSource(last)] else []
  }

  function Sources(jobs: seq<JobView>, rows: seq<Cluster>, runs: seq<RunView>, reference: real): seq<Source> {
    JobSources(jobs) + HealthSources(rows, reference) + RunSources(runs)
  }

  /** A recorded observation asks for review unless it is good and in its window. */
  lemma QuietIffGoodAndFresh(row: Cluster, reference: real)
    requires row.observation.Some?
    ensures !NeedsReview(row, reference) <==>
      && row.observation.value.reading.status == Good
      && row.observation.value.reading.collection == Completed
      && row.observation.value.reading.collectedAt.at.Some?
      && 0.0 <= reference - row.observation.value.reading.collectedAt.at.value <= TTL_SECONDS
  {
  }

  /******* The list *******/

  datatype ItemStatus = Open | Acknowledged | Resolved

  datatype Review = Review(actor: string, status: ItemStatus, owner: string, notes: string, at: Stamp)

  datatype Item = Item(source: Source, status: ItemStatus, owner: string, notes: string, reviews: seq<Review>,
                       createdAt: Stamp, updatedAt: Stamp)

  type Attention = map<string, Item>

  /** What one source does to the list. */
  function Noted(attention: Attention, source: Source, now: Stamp): Attention {
    if source.id !in attention then attention[source.id := Item(source, Open, "", "", [], now, now)]
    else
      var previous := attention[source.id];
      if previous.source.version != source.version then
        attention[source.id := previous.(source := source, status := Open, updatedAt := now)]
      else if previous.source.title != source.title || previous.source.detail != source.detail then
        attention[source.id := previous.(source := previous.source.(title := source.title, detail := source.detail))]
      else attention
  }

  predicate Notes(attention: Attention, source: Source) {
    && source.id in attention
    && attention[source.id].source.version == source.version
    && attention[source.id].source.title == source.title
    && attention[source.id].source.detail == source.detail
  }

  function AllNoted(attention: Attention, sources: seq<Source>, now: Stamp): Attention {
    if sources == [] then attention
    else Noted(AllNoted(attention, sources[..|sources| - 1], now), sources[|sources| - 1], now)
  }

  /** Whether any source changed the list, as the loop finds out. */
  function Changes(attention: Attention, sources: seq<Source>, now: Stamp): bool {
    if sources == [] then false
    else
      var before := sources[..|sources| - 1];
      Changes(attention, before, now) || !Notes(AllNoted(attention, before, now), sources[|sources| - 1])
  }

  /** No item disappears, and what operators entered stays; an item is reopened
      only by a source with another version. */
  lemma {:induction false} ReviewsAreKept(attention: Attention, sources: seq<Source>, now: Stamp, id: string)
    requires id in attention
    ensures id in AllNoted(attention, sources, now)
    ensures var item, item' := attention[id], AllNoted(attention, sources, now)[id];
      && item'.reviews == item.reviews && item'.owner == item.owner && item'.notes == item.notes
      && item'.createdAt == item.createdAt
      && (item'.status == item.status || item'.status == Open)
  {
    if sources != [] {
      ReviewsAreKept(attention, sources[..|sources| - 1], now, id);
    }
  }

  /** While every source of an item carries the version it was reviewed for, its
      status does not change. */
  lemma {:induction false} ReopenedOnlyByNewVersion(attention: Attention, sources: seq<Source>, now: Stamp, id: string)
    requires id in attention
    requires forall s :: s in sources && s.id == id ==> s.version == attention[id].source.version
    ensures id in AllNoted(attention, sources, now)
    ensures AllNoted(attention, sources, now)[id].status == attention[id].status
    ensures AllNoted(attention, sources, now)[id].source.version == attention[id].source.version
  {
    if sources != [] {
      assert forall s :: s in sources[..|sources| - 1] ==> s in sources;
      ReopenedOnlyByNewVersion(attention, sources[..|sources| - 1], now, id);
      assert sources[|sources| - 1] in sources;
    }
  }

  /** Items that no source names are untouched. */
  lemma {:induction false} OthersUntouched(attention: Attention, sources: seq<Source>, now: Stamp, id: string)
    requires forall s :: s in sources ==> s.id != id
    ensures id in AllNoted(attention, sources, now) <==> id in attention
    ensures id in attention ==> AllNoted(attention, sources, now)[id] == attention[id]
  {
    if sources != [] {
      assert forall s :: s in sources[..|sources| - 1] ==> s in sources;
      OthersUntouched(attention, sources[..|sources| - 1], now, id);
      assert sources[|sources| - 1] in sources;
    }
  }

  /******* A second summary *******/

  predicate SameSource(a: Source, b: Source) {
    a.version == b.version && a.title == b.title && a.detail == b.detail
  }

  /** Sources of one item agree. */
  predicate Agree(sources: seq<Source>) {
    forall s, t :: s in sources && t in sources && s.id == t.id ==> SameSource(s, t)
  }

  /** After a pass every source is noted, provided the sources agree. */
  lemma {:induction false} NotedAfterPass(attention: Attention, sources: seq<Source>, now: Stamp, s: Source)
    requires Agree(sources) && s in sources
    ensures Notes(AllNoted(attention, sources, now), s)
  {
    var before, last := sources[..|sources| - 1], sources[|sources| - 1];
    if s.id == last.id {
      assert SameSource(s, last);
    } else {
      assert s in before;
      assert Agree(before);
      NotedAfterPass(attention, before, now, s);
    }
  }

  /** A pass over noted sources changes nothing, and the other way round. */
  lemma {:induction false} QuietIffNoted(attention: Attention, sources: seq<Source>, now: Stamp)
    ensures !Changes(attention, sources, now) <==> forall s :: s in sources ==> Notes(attention, s)
    ensures !Changes(attention, sources, now) ==> AllNoted(attention, sources, now) == attention
  {
    if sources != [] {
      var before, last := sources[..|sources| - 1], sources[|sources| - 1];
      QuietIffNoted(attention, before, now);
      assert forall s :: s in sources <==> s in before || s == last;
    }
  }

  /** A second summary over the same sources changes nothing, if and only if sources
      with one id agree with each other. */
  lemma SummaryIdempotentIff(attention: Attention, sources: seq<Source>, first: Stamp, second: Stamp)
    ensures !Changes(AllNoted(attention, sources, first), sources, second) <==> Agree(sources)
  {
    var once := AllNoted(attention, sources, first);
    QuietIffNoted(once, sources, second);
    if Agree(sources) {
      forall s | s in sources
        ensures Notes(once, s)
      {
        NotedAfterPass(attention, sources, first, s);
      }
    } else {
      var s, t :| s in sources && t in sources && s.id == t.id && !SameSource(s, t);
      assert !(Notes(once, s) && Notes(once, t));
    }
  }

  /******* Where sources come from *******/

  predicate DistinctJobs(jobs: seq<JobView>) {
    forall i, j :: 0 <= i < j < |jobs| ==> jobs[i].id != jobs[j].id
  }

  predicate DistinctRuns(runs: seq<RunView>) {
    forall i, j :: 0 <= i < j < |runs| ==> runs[i].id != runs[j].id
  }

  lemma {:induction false} JobSourceOrigin(jobs: seq<JobView>, s: Source)
    requires s in JobSources(jobs)
    ensures exists k :: 0 <= k < |jobs| && jobs[k].failed && s == JobSource(jobs[k])
  {
    var last := |jobs| - 1;
    if s in JobSources(jobs[..last]) {
      JobSourceOrigin(jobs[..last], s);
      var k :| 0 <= k < last && jobs[..last][k].failed && s == JobSource(jobs[..last][k]);
      assert jobs[k] == jobs[..last][k];
    }
  }

  lemma {:induction false} HealthSourceOrigin(rows: seq<Cluster>, reference: real, s: Source)
    requires s in HealthSources(rows, reference)
    ensures exists k :: 0 <= k < |rows| && NeedsReview(rows[k], reference) && s == HealthSource(rows[k], reference)
  {
    var last := |rows| - 1;
    if s in HealthSources(rows[..last], reference) {
      HealthSourceOrigin(rows[..last], reference, s);
      var k :| 0 <= k < last && NeedsReview(rows[..last][k], reference) && s == HealthSource(rows[..last][k], reference);
      assert rows[k] == rows[..last][k];
    }
  }

  lemma {:induction false} RunSourceOrigin(runs: seq<RunView>, s: Source)
    requires s in RunSources(runs)
    ensures exists k :: 0 <= k < |runs| && runs[k].attention && s == RunSource(runs[k])
  {
    var last := |runs| - 1;
    if s in RunSources(runs[..last]) {
      RunSourceOrigin(runs[..last], s);
      var k :| 0 <= k < last && runs[..last][k].attention && s == RunSource(runs[..last][k]);
      assert runs[k] == runs[..last][k];
    }
  }

  /** With unique job, row and run ids every source has an id of its own, so a
      repeated summary is quiet. */
  lemma SourcesAgree(jobs: seq<JobView>, rows: seq<Cluster>, runs: seq<RunView>, reference: real)
    requires DistinctJobs(jobs) && Unique(rows) && DistinctRuns(runs)
    ensures Agree(Sources(jobs, rows, runs, reference))
  {
    var sources := Sources(jobs, rows, runs, reference);
    forall s, t | s in sources && t in sources && s.id == t.id
      ensures SameSource(s, t)
    {
      SameIdSameSource(jobs, rows, runs, reference, s, t);
    }
  }

  lemma SameIdSameSource(jobs: seq<JobView>, rows: seq<Cluster>, runs: seq<RunView>, reference: real, s: Source, t: Source)
    requires DistinctJobs(jobs) && Unique(rows) && DistinctRuns(runs)
    requires s in Sources(jobs, rows, runs, reference) && t in Sources(jobs, rows, runs, reference) && s.id == t.id
    ensures s == t
  {
    OriginOf(jobs, rows, runs, reference, s);
    OriginOf(jobs, rows, runs, reference, t);
    if s.id[0] == 'j' {
      JobSourceOrigin(jobs, s);
      JobSourceOrigin(jobs, t);
      assert s.id[4..] == t.id[4..];
    } else if s.id[0] == 'h' {
      HealthSourceOrigin(rows, reference, s);
      HealthSourceOrigin(rows, reference, t);
      var i :| 0 <= i < |rows| && NeedsReview(rows[i], reference) && s == HealthSource(rows[i], reference);
      var j :| 0 <= j < |rows| && NeedsReview(rows[j], reference) && t == HealthSource(rows[j], reference);
      assert rows[i].id == s.id[7..] == t.id[7..] == rows[j].id;
      if i < j {
        UniqueMeansDistinct(rows, i, j);
      } else if j < i {
        UniqueMeansDistinct(rows, j, i);
      }
    } else {
      RunSourceOrigin(runs, s);
      RunSourceOrigin(runs, t);
      assert s.id[9..] == t.id[9..];
    }
  }

  /** The prefix of its id tells which list a source comes from. */
  lemma OriginOf(jobs: seq<JobView>, rows: seq<Cluster>, runs: seq<RunView>, reference: real, s: Source)
    requires s in Sources(jobs, rows, runs, reference)
    ensures |s.id| > 0
    ensures s.id[0] == 'j' ==> s in JobSources(jobs)
    ensures s.id[0] == 'h' ==> s in HealthSources(rows, reference)
    ensures s.id[0] != 'j' && s.id[0] != 'h' ==> s in RunSources(runs)
  {
    if s in JobSources(jobs) {
      JobSourceOrigin(jobs, s);
    } else if s in HealthSources(rows, reference) {
      HealthSourceOrigin(rows, reference, s);
    } else {
      RunSourceOrigin(runs, s);
    }
  }
}
