/**
 The one-slot request spool between many web writers and one update service. A
 writer creates the lock file exclusively, writes its own temporary file and moves
 it over the request; the service takes the request and removes the lock, or finds
 no request and removes a lock older than a minute. Nothing serialises the two
 sides but the lock file, so everything rests on time.
 */
module Spool {
  import opened Prelude

  type WriterId = nat

  /** `publish`: the longest time a writer takes from its lock to its request.
      `window`: the longest time the service takes from finding no request to
      looking at the age of the lock. */
  datatype Limits = Limits(publish: nat, window: nat)

  const STALE_SECONDS: nat := 60

  datatype Lock = Lock(owner: WriterId, since: nat)

  /** Where the service loop is. */
  datatype Service =
    | Looping
    | Seen
    | Absent(at: nat)
    | Stale
    | Processing

  datatype Event = Published(writer: WriterId) | Taken(writer: WriterId)

  /** `holding`: the writers between their lock and their request, and since when. */
  datatype Directory = Directory(lock: Option<Lock>, request: Option<WriterId>, holding: map<WriterId, nat>,
                                 service: Service, now: nat, trace: seq<Event>)

  datatype Action =
    | TakeLock(id: WriterId)
    | Publish(id: WriterId)
    | Abandon(id: WriterId)
    | WriterDies(id: WriterId)
    | Look
    | Take
    | Unlock
    | LookAtLock
    | RemoveStale
    | Crash
    | Tick(elapsed: nat)

  function Init(): Directory {
    Directory(None, None, map[], Looping, 0, [])
  }

  /** A writer that has not exceeded its time. */
  predicate InTime(limits: Limits, d: Directory, id: WriterId) {
    id in d.holding && d.now - d.holding[id] <= limits.publish
  }

  function Step(limits: Limits, d: Directory, a: Action): Directory {
    match a
    case TakeLock(id) =>
      if d.lock.Some? || id in d.holding then d
      else d.(lock := Some(Lock(id, d.now)), holding := d.holding[id := d.now])
    case Publish(id) =>
      if !InTime(limits, d, id) then d
      else d.(request := Some(id), holding := d.holding - {id}, trace := d.trace + [Published(id)])
    case Abandon(id) =>
      if !InTime(limits, d, id) then d else d.(lock := None, holding := d.holding - {id})
    case WriterDies(id) => d.(holding := d.holding - {id})
    case Look =>
      if !d.service.Looping? then d else d.(service := if d.request.Some? then Seen else Absent(d.now))
    case Take =>
      if !d.service.Seen? || d.request.None? then d
      else d.(request := None, service := Processing, trace := d.trace + [Taken(d.request.value)])
    case Unlock =>
      if !d.service.Processing? then d else d.(lock := None, service := Looping)
    case LookAtLock =>
      if !d.service.Absent? || d.now - d.service.at > limits.window then d
      else if d.lock.Some? && d.now - d.lock.value.since > STALE_SECONDS then d.(service := Stale)
      else d.(service := Looping)
    case RemoveStale =>
      if !d.service.Stale? then d else d.(lock := None, service := Looping)
    case Crash => d.(service := Looping)
    case Tick(elapsed) => d.(now := d.now + elapsed)
  }

  function After(limits: Limits, history: seq<Action>): Directory {
    if history == [] then Init() else Step(limits, After(limits, history[..|history| - 1]), history[|history| - 1])
  }

  /** A request is published into an empty slot; what is taken is what lies there. */
  predicate Follows(before: seq<Event>, e: Event) {
    match e
    case Published(_) => before == [] || before[|before| - 1].Taken?
    case Taken(writer) => before != [] && before[|before| - 1] == Published(writer)
  }

  /** Requests are published and taken in strict alternation, and what is taken is
      what was published: none is overwritten, lost or taken twice. */
  predicate Alternates(trace: seq<Event>) {
    forall k :: 0 <= k < |trace| ==> Follows(trace[..k], trace[k])
  }

  lemma OneMoreAlternates(trace: seq<Event>, e: Event)
    requires Alternates(trace) && Follows(trace, e)
    ensures Alternates(trace + [e])
  {
    forall k | 0 <= k < |trace + [e]|
      ensures Follows((trace + [e])[..k], (trace + [e])[k])
    {
      assert (trace + [e])[..k] == trace[..k];
      assert trace[..|trace|] == trace;
    }
  }

  ghost predicate NobodyWrites(limits: Limits, d: Directory) {
    forall id :: !InTime(limits, d, id)
  }

  ghost predicate LockSound(limits: Limits, d: Directory) {
    && (forall id :: id in d.holding ==> d.holding[id] <= d.now)
    && (forall id :: InTime(limits, d, id) ==> d.lock == Some(Lock(id, d.holding[id])))
    && (d.lock.Some? ==> d.lock.value.since <= d.now)
    && (d.service.Absent? ==> d.service.at <= d.now)
    && (d.request.Some? || d.service.Stale? || d.service.Processing? ==> d.lock.Some? && NobodyWrites(limits, d))
    && (d.request.Some? ==> !d.service.Stale? && !d.service.Processing?)
    && (d.request.Some? && d.service.Absent? ==> d.lock.value.since + limits.publish >= d.service.at)
  }

  predicate TraceSound(d: Directory) {
    && Alternates(d.trace)
    && (if d.request.Some? then d.trace != [] && d.trace[|d.trace| - 1] == Published(d.request.value)
        else d.trace == [] || d.trace[|d.trace| - 1].Taken?)
  }

  ghost predicate Sound(limits: Limits, d: Directory) {
    LockSound(limits, d) && TraceSound(d)
  }

  lemma StepKeepsLock(limits: Limits, d: Directory, a: Action)
    requires limits.publish + limits.window <= STALE_SECONDS
    requires LockSound(limits, d)
    ensures LockSound(limits, Step(limits, d, a))
  {
    var d' := Step(limits, d, a);
    assert forall id :: InTime(limits, d', id) ==> InTime(limits, d, id) || a == TakeLock(id);
  }

  lemma StepKeepsTrace(limits: Limits, d: Directory, a: Action)
    requires LockSound(limits, d) && TraceSound(d)
    ensures TraceSound(Step(limits, d, a))
  {
    var d' := Step(limits, d, a);
    if d'.trace != d.trace {
      OneMoreAlternates(d.trace, d'.trace[|d.trace|]);
    }
  }

  lemma {:induction false} StaysSound(limits: Limits, history: seq<Action>)
    requires limits.publish + limits.window <= STALE_SECONDS
    ensures Sound(limits, After(limits, history))
  {
    if history != [] {
      StaysSound(limits, history[..|history| - 1]);
      StepKeepsLock(limits, After(limits, history[..|history| - 1]), history[|history| - 1]);
      StepKeepsTrace(limits, After(limits, history[..|history| - 1]), history[|history| - 1]);
    }
  }

  /** Among writers that keep the limit, at most one is between its lock and its request. */
  lemma OneWriterAtATime(limits: Limits, history: seq<Action>, i: WriterId, j: WriterId)
    requires limits.publish + limits.window <= STALE_SECONDS
    requires InTime(limits, After(limits, history), i) && InTime(limits, After(limits, history), j)
    ensures i == j
  {
    StaysSound(limits, history);
  }

  /** With more time than that, the service can look for a request just before it
      is published and at the lock only when it has gone stale ... */
  lemma SlowServiceRemovesLiveLock(limits: Limits) returns (history: seq<Action>)
    requires limits.publish + limits.window > STALE_SECONDS
    ensures After(limits, history) ==
      Directory(None, Some(1), map[], Looping, limits.publish + limits.window, [Published(1)])
  {
    var d := Init();
    history, d := Then(limits, [], d, TakeLock(1));
    history, d := Then(limits, history, d, Tick(limits.publish));
    history, d := Then(limits, history, d, Look);
    history, d := Then(limits, history, d, Publish(1));
    assert d == Directory(Some(Lock(1, 0)), Some(1), map[], Absent(limits.publish), limits.publish, [Published(1)]);
    history, d := Then(limits, history, d, Tick(limits.window));
    history, d := Then(limits, history, d, LookAtLock);
    history, d := Then(limits, history, d, RemoveStale);
  }

  /** ... and the next writer then overwrites the published request. */
  lemma SlowServiceOverwrites(limits: Limits) returns (history: seq<Action>)
    requires limits.publish + limits.window > STALE_SECONDS
    ensures After(limits, history).trace == [Published(1), Published(2)]
  {
    history := SlowServiceRemovesLiveLock(limits);
    var d := After(limits, history);
    history, d := Then(limits, history, d, TakeLock(2));
    history, d := Then(limits, history, d, Publish(2));
  }

  lemma Then(limits: Limits, history: seq<Action>, d: Directory, a: Action) returns (longer: seq<Action>, next: Directory)
    requires After(limits, history) == d
    ensures After(limits, longer) == next == Step(limits, d, a)
  {
    longer, next := history + [a], Step(limits, d, a);
    assert longer[..|longer| - 1] == history;
  }

  /** Requests are never overwritten, in any history of any number of writers, the
      service and its crashes, if and only if the two times fit into the stale limit. */
  lemma NeverOverwrittenIff(limits: Limits)
    ensures (forall history :: Alternates(After(limits, history).trace)) <==> limits.publish + limits.window <= STALE_SECONDS
  {
    if limits.publish + limits.window <= STALE_SECONDS {
      forall history
        ensures Alternates(After(limits, history).trace)
      {
        StaysSound(limits, history);
      }
    } else {
      var history := SlowServiceOverwrites(limits);
      assert !Follows(After(limits, history).trace[..1], Published(2));
    }
  }
}
