/**
 Requests and readiness plans of the update worker over every history: the body
 of a request runs at most once, and a plan reaches the stop at most once,
 whatever crashes and restarts fall in between.
 */
module UpdateOnce {
  import opened Prelude
  import opened UpdateSteps

  ghost predicate HasBegun(trace: seq<Event>, id: Id) {
    Began(id) in trace
  }

  ghost predicate Stops(e: Event, plan: PlanId) {
    e.Stopped? && e.plan == plan
  }

  ghost predicate HasStopped(trace: seq<Event>, plan: PlanId) {
    exists k :: 0 <= k < |trace| && Stops(trace[k], plan)
  }

  /** No later event may repeat this one. */
  ghost predicate NotAgain(before: seq<Event>, e: Event) {
    match e
    case Began(id) => !HasBegun(before, id)
    case Stopped(_, plan) => !HasStopped(before, plan)
    case _ => true
  }

  ghost predicate NoRepeats(trace: seq<Event>) {
    forall j :: 0 <= j < |trace| ==> NotAgain(trace[..j], trace[j])
  }

  /** A plan between its use and the stop it is used for. */
  predicate Using(pc: Pc) {
    pc.Recording? || pc.Flagging? || pc.AnnouncingStop? || pc.Stopping?
  }

  ghost predicate OnceSound(w: Worker) {
    && (forall id :: HasBegun(w.trace, id) ==> id in w.reports)
    && (forall plan :: HasStopped(w.trace, plan) ==> plan in w.consumed)
    && (w.pc.Claimed? || w.pc.Announcing? ==> w.mem.operation.Some? && !HasBegun(w.trace, OpId(w.mem)))
    && (w.pc.Locking? || w.pc.Rechecking? || w.pc.Consuming? ==> w.pc.plan !in w.consumed)
    && (Using(w.pc) ==> w.pc.plan in w.consumed && !HasStopped(w.trace, w.pc.plan))
  }

  lemma OneMoreEvent(trace: seq<Event>, e: Event)
    ensures forall id :: HasBegun(trace + [e], id) <==> HasBegun(trace, id) || e == Began(id)
    ensures forall plan :: HasStopped(trace + [e], plan) <==> HasStopped(trace, plan) || Stops(e, plan)
  {
    forall plan
      ensures HasStopped(trace + [e], plan) <==> HasStopped(trace, plan) || Stops(e, plan)
    {
      if HasStopped(trace, plan) {
        var k :| 0 <= k < |trace| && Stops(trace[k], plan);
        assert Stops((trace + [e])[k], plan);
      }
      if Stops(e, plan) {
        assert Stops((trace + [e])[|trace|], plan);
      }
    }
  }

  lemma OneMoreUnrepeated(trace: seq<Event>, e: Event)
    requires NoRepeats(trace) && NotAgain(trace, e)
    ensures NoRepeats(trace + [e])
  {
    forall j | 0 <= j < |trace + [e]|
      ensures NotAgain((trace + [e])[..j], (trace + [e])[j])
    {
      assert (trace + [e])[..j] == trace[..j];
      assert trace[..|trace|] == trace;
    }
  }

  lemma SaveKeepsOnce(w: Worker, fate: Fate)
    requires OnceSound(w)
    ensures OnceSound(OnSave(w, fate))
  {
    OneMoreEvent(w.trace, Began(OpId(w.mem)));
  }

  lemma AttemptKeepsOnce(w: Worker, answer: Answer, tag: Tag, image: ImageId)
    requires OnceSound(w)
    ensures OnceSound(OnAttempt(w, answer, tag, image))
  {
    var w' := OnAttempt(w, answer, tag, image);
    if w'.trace != w.trace {
      OneMoreEvent(w.trace, w'.trace[|w.trace|]);
      assert w'.trace == w.trace + [w'.trace[|w.trace|]];
    }
  }

  lemma StepKeepsOnce(w: Worker, a: Action)
    requires OnceSound(w)
    ensures OnceSound(Step(w, a))
  {
    match a
    case Save(fate) => SaveKeepsOnce(w, fate);
    case Attempt(answer, tag, image) => AttemptKeepsOnce(w, answer, tag, image);
    case Begin(_, _) => OneMoreEvent(w.trace, Approved(OpId(w.mem)));
    case _ =>
  }

  lemma StepRepeatsNothing(w: Worker, a: Action)
    requires OnceSound(w) && NoRepeats(w.trace)
    ensures NoRepeats(Step(w, a).trace)
  {
    var w' := Step(w, a);
    if w'.trace != w.trace {
      var e := w'.trace[|w.trace|];
      assert w'.trace == w.trace + [e];
      OneMoreUnrepeated(w.trace, e);
    }
  }

  lemma {:induction false} OnceStaysSound(history: seq<Action>)
    ensures OnceSound(After(history)) && NoRepeats(After(history).trace)
  {
    if history != [] {
      var before, a := history[..|history| - 1], history[|history| - 1];
      OnceStaysSound(before);
      StepKeepsOnce(After(before), a);
      StepRepeatsNothing(After(before), a);
    }
  }

  lemma LaterDiffers(trace: seq<Event>, i: nat, j: nat)
    requires NoRepeats(trace) && i < j < |trace|
    ensures trace[i].Began? && trace[j].Began? ==> trace[i].id != trace[j].id
    ensures trace[i].Stopped? && trace[j].Stopped? ==> trace[i].plan != trace[j].plan
  {
    assert NotAgain(trace[..j], trace[j]);
    assert trace[..j][i] == trace[i];
    assert trace[i].Stopped? ==> Stops(trace[..j][i], trace[i].plan);
  }

  /** Each request's body runs at most once, and each plan stops the application
      at most once. */
  lemma RequestsAndPlansRunOnce(history: seq<Action>, i: nat, j: nat)
    requires i < j < |After(history).trace|
    ensures var trace := After(history).trace;
      && (trace[i].Began? && trace[j].Began? ==> trace[i].id != trace[j].id)
      && (trace[i].Stopped? && trace[j].Stopped? ==> trace[i].plan != trace[j].plan)
  {
    OnceStaysSound(history);
    LaterDiffers(After(history).trace, i, j);
  }
}
