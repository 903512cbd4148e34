/**
 The spool directory as an object that one writer's `submit` and one turn of the
 service loop change file by file, with any steps of the others in between. What
 they did is a history of the transition system of `Spool`.
 */
module SpoolDirectoryModel {
  import opened Prelude
  import opened Spool

  class SpoolDirectory {
    const limits: Limits
    var lock: Option<Lock>
    var request: Option<WriterId>
    var holding: map<WriterId, nat>
    var service: Service
    var now: nat
    ghost var trace: seq<Event>
    ghost var log: seq<Action>

    ghost function State(): Directory
      reads this
    {
      Directory(lock, request, holding, service, now, trace)
    }

    ghost predicate Valid()
      reads this
    {
      State() == After(limits, log)
    }

    constructor (limits: Limits)
      ensures Valid() && this.limits == limits && log == []
    {
      this.limits := limits;
      lock, request, holding, service, now, trace, log := None, None, map[], Looping, 0, [], [];
    }

    /** One file operation, or the time between two. */
    method Perform(a: Action)
      requires Valid()
      modifies this
      ensures Valid() && log == old(log) + [a] && State() == Step(limits, old(State()), a)
    {
      match a {
        case TakeLock(id) =>
          if lock.None? && id !in holding {
            lock := Some(Lock(id, now));
            holding := holding[id := now];
          }
        case Publish(id) =>
          if id in holding && now - holding[id] <= limits.publish {
            request := Some(id);
            holding := holding - {id};
            trace := trace + [Published(id)];
          }
        case Abandon(id) =>
          if id in holding && now - holding[id] <= limits.publish {
            lock := None;
            holding := holding - {id};
          }
        case WriterDies(id) => holding := holding - {id};
        case Look =>
          if service.Looping? {
            service := if request.Some? then Seen else Absent(now);
          }
        case Take =>
          if service.Seen? && request.Some? {
            trace := trace + [Taken(request.value)];
            request := None;
            service := Processing;
          }
        case Unlock =>
          if service.Processing? {
            lock := None;
            service := Looping;
          }
        case LookAtLock =>
          if service.Absent? && now - service.at <= limits.window {
            service := if lock.Some? && now - lock.value.since > STALE_SECONDS then Stale else Looping;
          }
        case RemoveStale =>
          if service.Stale? {
            lock := None;
            service := Looping;
          }
        case Crash => service := Looping;
        case Tick(elapsed) => now := now + elapsed;
      }
      log := log + [a];
      assert log[..|log| - 1] == old(log);
    }

    /** The two times fit into the stale limit. */
    predicate TimesFit() {
      limits.publish + limits.window <= STALE_SECONDS
    }

    /** Steps of anyone but writer `id`. */
    static predicate OfOthers(a: Action, id: WriterId) {
      a != Publish(id) && a != Abandon(id) && a != WriterDies(id) && a != TakeLock(id)
    }

    /** Steps of writers, and time. */
    static predicate OfWriters(a: Action) {
      a.TakeLock? || a.Publish? || a.Abandon? || a.WriterDies? || a.Tick?
    }

    method Interleave(others: seq<Action>, id: WriterId)
      requires Valid() && forall k :: 0 <= k < |others| ==> OfOthers(others[k], id)
      modifies this
      ensures Valid() && old(log) <= log
      ensures id in holding <==> id in old(holding)
      ensures id in holding ==> holding[id] == old(holding)[id]
    {
      for k := 0 to |others|
        invariant Valid() && old(log) <= log
        invariant id in holding <==> id in old(holding)
        invariant id in holding ==> holding[id] == old(holding)[id]
      {
        assert OfOthers(others[k], id);
        Perform(others[k]);
      }
    }

    method LetWritersRun(others: seq<Action>)
      requires Valid() && forall k :: 0 <= k < |others| ==> OfWriters(others[k])
      modifies this
      ensures Valid() && old(log) <= log && service == old(service)
      ensures old(request).Some? ==> request.Some?
      ensures TimesFit() && old(request).Some? ==> request == old(request)
    {
      for k := 0 to |others|
        invariant Valid() && old(log) <= log && service == old(service)
        invariant old(request).Some? ==> request.Some?
        invariant TimesFit() && old(request).Some? ==> request == old(request)
      {
        assert OfWriters(others[k]);
        if TimesFit() {
          StaysSound(limits, log);
        }
        Perform(others[k]);
      }
    }

    /** `submit` after its look at the status: None when the request is in place, a
        message otherwise. `written` is false when the storage refuses the file. */
    method Submit(id: WriterId, others: seq<Action>, written: bool) returns (problem: Option<string>)
      requires Valid() && id !in holding
      requires forall k :: 0 <= k < |others| ==> OfOthers(others[k], id)
      modifies this
      ensures Valid() && old(log) <= log
      ensures old(lock).Some? <==> problem == Some("An appliance request is already pending")
      ensures old(lock).Some? ==> State() == old(State())
      ensures problem.None? ==> request == Some(id) && trace != [] && trace[|trace| - 1] == Published(id)
      ensures id !in holding
      ensures problem.None? && TimesFit() ==> Alternates(trace)
    {
      if lock.Some? {
        return Some("An appliance request is already pending");
      }
      Perform(TakeLock(id));
      Interleave(others, id);
      if now - holding[id] > limits.publish {
        Perform(WriterDies(id));
        return Some("The writer exceeded its time");
      }
      if !written {
        Perform(Abandon(id));
        return Some("The storage refused the request");
      }
      Perform(Publish(id));
      if TimesFit() {
        StaysSound(limits, log);
      }
      problem := None;
    }

    /** One turn of the service loop: a request is taken and its lock removed after
        processing; without one, an old lock is removed. */
    method Turn(first: seq<Action>, second: seq<Action>) returns (taken: Option<WriterId>)
      requires Valid() && service.Looping?
      requires forall k :: 0 <= k < |first| ==> OfWriters(first[k])
      requires forall k :: 0 <= k < |second| ==> OfWriters(second[k])
      modifies this
      ensures Valid() && old(log) <= log
      ensures taken.Some? <==> old(request).Some?
      ensures taken.Some? ==> lock.None? && service.Looping?
      ensures TimesFit() ==> taken == old(request) && Alternates(trace)
    {
      taken := request;
      Perform(Look);
      LetWritersRun(first);
      if service.Seen? {
        taken := request;
        Perform(Take);
        LetWritersRun(second);
        Perform(Unlock);
      } else {
        Perform(LookAtLock);
        LetWritersRun(second);
        Perform(RemoveStale);
      }
      if TimesFit() {
        StaysSound(limits, log);
      }
    }
  }
}
