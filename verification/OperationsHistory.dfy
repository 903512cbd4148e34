/**
 The operations store over every history of edits, collections, summaries,
 reviews and restarts.
 */
module OperationsHistory {
  import opened Prelude
  import opened OperationsRecords
  import opened OperationsAttention

  datatype Store = Store(revision: nat, clusters: seq<Cluster>, attention: Attention)

  /** `collecting`: the rows whose collection is under way, as they were. */
  datatype World = World(store: Store, collecting: map<Id, Cluster>)

  datatype Action =
    | Edit(revision: int, proposed: Proposed, identity: Option<Id>, newId: Id, now: Stamp)
    | BeginCollection(id: Id)
    | EndCollection(id: Id, reading: Option<Reading>)
    | Summarise(jobs: seq<JobView>, runs: seq<RunView>, reference: real, now: Stamp, writable: bool)
    | Decide(id: string, revision: int, review: Review)
    | Restart

  function Init(): World {
    World(Store(0, [], map[]), map[])
  }

  const KEPT_REVIEWS := 100

  function LastReviews(reviews: seq<Review>): seq<Review> {
    if |reviews| <= KEPT_REVIEWS then reviews else reviews[|reviews| - KEPT_REVIEWS..]
  }

  function Decided(item: Item, review: Review): Item {
    item.(reviews := LastReviews(item.reviews + [review]), status := review.status, owner := review.owner,
          notes := review.notes, updatedAt := review.at)
  }

  predicate Admissible(review: Review) {
    (review.status == Acknowledged ==> review.owner != "") && (review.status != Open ==> review.notes != "")
  }

  /** Fresh ids are new: an edit that would reuse one is left out. */
  predicate EditAccepted(s: Store, revision: int, proposed: Proposed, identity: Option<Id>, newId: Id) {
    && Refusal(s.clusters, revision == s.revision, proposed, identity).None?
    && (identity.None? ==> forall r :: r in s.clusters ==> r.id != newId)
  }

  function Step(w: World, a: Action): World {
    var s := w.store;
    match a
    case Edit(revision, proposed, identity, newId, now) =>
      if !EditAccepted(s, revision, proposed, identity, newId) then w
      else w.(store := s.(clusters := Replaced(s.clusters, proposed, identity, newId, now), revision := s.revision + 1))
    case BeginCollection(id) =>
      if Find(s.clusters, id).None? || id in w.collecting then w
      else w.(collecting := w.collecting[id := Find(s.clusters, id).value])
    case EndCollection(id, reading) =>
      if id !in w.collecting then w
      else
        var done := w.(collecting := w.collecting - {id});
        if reading.None? || Find(s.clusters, id) != Some(w.collecting[id]) then done
        else
          done.(store := s.(clusters := WithReading(s.clusters, id, w.collecting[id].baseline, reading.value),
                            revision := s.revision + 1))
    case Summarise(jobs, runs, reference, now, writable) =>
      var sources := Sources(jobs, s.clusters, runs, reference);
      if !writable || !Changes(s.attention, sources, now) then w
      else w.(store := s.(attention := AllNoted(s.attention, sources, now), revision := s.revision + 1))
    case Decide(id, revision, review) =>
      if !Admissible(review) || revision != s.revision || id !in s.attention then w
      else w.(store := s.(attention := s.attention[id := Decided(s.attention[id], review)], revision := s.revision + 1))
    case Restart => w.(collecting := map[])
  }

  function After(history: seq<Action>): World {
    if history == [] then Init() else Step(After(history[..|history| - 1]), history[|history| - 1])
  }

  lemma StepKeepsSound(w: World, a: Action)
    requires Sound(w.store.clusters)
    ensures Sound(Step(w, a).store.clusters)
  {
    match a
    case Edit(revision, proposed, identity, newId, now) =>
      if EditAccepted(w.store, revision, proposed, identity, newId) {
        EditKeepsSound(w.store.clusters, proposed, identity, newId, now);
      }
    case EndCollection(id, reading) =>
      if reading.Some? && id in w.collecting {
        ReadingKeepsSound(w.store.clusters, id, w.collecting[id].baseline, reading.value);
      }
    case _ =>
  }

  /** In every history, ids, endpoints and nonempty UUIDs are unique, and every stored
      observation was collected for the baseline its row has now: what was edited
      while a collection ran does not get that collection's reading. */
  lemma {:induction false} RecordsStaySound(history: seq<Action>)
    ensures Sound(After(history).store.clusters)
  {
    if history != [] {
      RecordsStaySound(history[..|history| - 1]);
      StepKeepsSound(After(history[..|history| - 1]), history[|history| - 1]);
    }
  }

  /** A write raises the revision by one; without a write nothing changes. */
  lemma EveryWriteIsNumbered(w: World, a: Action)
    ensures var w' := Step(w, a);
      w'.store == w.store || w'.store.revision == w.store.revision + 1
  {
  }

  lemma {:induction false} RevisionOnlyGrows(history: seq<Action>, n: nat)
    requires n <= |history|
    ensures After(history[..n]).store.revision <= After(history).store.revision
    ensures After(history[..n]).store.revision == After(history).store.revision ==> After(history[..n]).store == After(history).store
  {
    if n < |history| {
      var before, last := history[..|history| - 1], history[|history| - 1];
      assert before[..n] == history[..n];
      RevisionOnlyGrows(before, n);
      EveryWriteIsNumbered(After(before), last);
    } else {
      assert history[..n] == history;
    }
  }

  /** No lost update: an edit or a review that is accepted with the revision an
      operator read is applied to exactly the records that operator read. */
  lemma AcceptedEditSawTheStore(history: seq<Action>, n: nat, a: Action)
    requires n <= |history|
    requires (a.Edit? || a.Decide?) && a.revision == After(history[..n]).store.revision
    requires Step(After(history), a) != After(history)
    ensures After(history).store == After(history[..n]).store
  {
    RevisionOnlyGrows(history, n);
  }

  /** No step removes an attention item or its creation time; only a decision on
      the item itself changes its reviews, and it appends one. */
  lemma ReviewsSurvive(w: World, a: Action, id: string)
    requires id in w.store.attention
    ensures var s, s' := w.store, Step(w, a).store;
      && id in s'.attention && s'.attention[id].createdAt == s.attention[id].createdAt
      && (s'.attention[id].reviews == s.attention[id].reviews
          || (a.Decide? && a.id == id && s'.attention[id].reviews == LastReviews(s.attention[id].reviews + [a.review])))
  {
    if a.Summarise? {
      ReviewsAreKept(w.store.attention, Sources(a.jobs, w.store.clusters, a.runs, a.reference), a.now, id);
    }
  }

  /** Repeating a summary at the same time changes nothing, in every history. */
  lemma RepeatedSummaryIsQuiet(history: seq<Action>, jobs: seq<JobView>, runs: seq<RunView>, reference: real, now: Stamp, later: Stamp)
    requires DistinctJobs(jobs) && DistinctRuns(runs)
    ensures var once := Step(After(history), Summarise(jobs, runs, reference, now, true));
      Step(once, Summarise(jobs, runs, reference, later, true)) == once
  {
    var s := After(history).store;
    var sources := Sources(jobs, s.clusters, runs, reference);
    RecordsStaySound(history);
    SourcesAgree(jobs, s.clusters, runs, reference);
    SummaryIdempotentIff(s.attention, sources, now, later);
    QuietIffNoted(s.attention, sources, now);
    QuietIffNoted(s.attention, sources, later);
  }
}
