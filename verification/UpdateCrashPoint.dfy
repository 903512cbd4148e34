/**
 Which record a restart restores. Wherever the process died, it is the interrupted
 operation's own if and only if something was written to disk after that operation
 had taken its record: before the record never, from the stop on always, and in
 between it depends on the heartbeat.
 */
module UpdateCrashPoint {
  import opened Prelude
  import opened UpdateSteps
  import opened UpdateOnce

  /** After the readiness event, before the record of the running image. */
  predicate BeforeRecord(pc: Pc) {
    pc.Rechecking? || pc.Consuming? || pc.Recording?
  }

  /** The record is taken; the save that announces the stop is not yet done. */
  predicate BeforeStop(pc: Pc) {
    pc.Flagging? || pc.AnnouncingStop?
  }

  /** From the stop until the target is marked as started. */
  predicate BeforeTarget(pc: Pc) {
    pc.Stopping? || pc.BackingUp? || pc.SavingReceipt? || pc.AnnouncingLoad? || pc.Loading? || pc.MarkingTarget?
  }

  ghost predicate OwnerBegun(doc: Doc, trace: seq<Event>) {
    doc.record.Some? ==> HasBegun(trace, doc.record.value.owner)
  }

  predicate Owns(doc: Doc) {
    doc.record.Some? && doc.record.value.owner == OpId(doc)
  }

  ghost predicate PcOwned(w: Worker) {
    && (w.pc.Claimed? || w.pc.Announcing? ==> w.mem.operation.Some? && !Owns(w.mem))
    && (w.pc.Begun? || w.pc.Locking? ==> w.mem.operation.Some? && !Owns(w.mem))
    && (w.pc.Locking? || w.pc.Begun? || BeforeRecord(w.pc) ==> HasBegun(w.trace, OpId(w.mem)))
    && (BeforeRecord(w.pc) ==> w.mem.operation.Some? && w.disk == w.mem && !Owns(w.mem))
    && (BeforeStop(w.pc) ==> Owns(w.mem) && OpId(w.disk) == OpId(w.mem))
    && (BeforeTarget(w.pc) ==> Owns(w.mem) && Owns(w.disk))
  }

  ghost predicate OwnerSound(w: Worker) {
    OwnerBegun(w.mem, w.trace) && OwnerBegun(w.disk, w.trace) && PcOwned(w)
  }

  lemma SaveKeepsOwner(w: Worker, fate: Fate)
    requires OnceSound(w) && OwnerSound(w)
    ensures OwnerSound(OnSave(w, fate))
  {
    OneMoreEvent(w.trace, Began(OpId(w.mem)));
  }

  lemma AttemptKeepsOwner(w: Worker, answer: Answer, tag: Tag, image: ImageId)
    requires OnceSound(w) && OwnerSound(w)
    ensures OwnerSound(OnAttempt(w, answer, tag, image))
  {
    if w.pc.Recording? {
      OneMoreEvent(w.trace, Recorded(OpId(w.mem), tag, image));
    } else {
      HostKeepsOwner(w, answer, tag, image);
    }
  }

  lemma HostKeepsOwner(w: Worker, answer: Answer, tag: Tag, image: ImageId)
    requires OwnerSound(w) && !w.pc.Recording?
    ensures OwnerSound(OnAttempt(w, answer, tag, image))
  {
    var w' := OnAttempt(w, answer, tag, image);
    if w'.trace != w.trace {
      OneMoreEvent(w.trace, w'.trace[|w.trace|]);
      assert w'.trace == w.trace + [w'.trace[|w.trace|]];
    }
    HostKeepsPcOwned(w, answer, tag, image);
  }

  lemma HostKeepsPcOwned(w: Worker, answer: Answer, tag: Tag, image: ImageId)
    requires PcOwned(w) && !w.pc.Recording?
    ensures PcOwned(OnAttempt(w, answer, tag, image))
  {
  }

  lemma BeginKeepsOwner(w: Worker, approved: bool, plan: PlanId)
    requires OnceSound(w) && OwnerSound(w)
    ensures OwnerSound(OnBegin(w, approved, plan))
  {
    OneMoreEvent(w.trace, Approved(OpId(w.mem)));
  }

  lemma AssignKeepsOwner(w: Worker)
    requires OnceSound(w) && OwnerSound(w)
    ensures OwnerSound(OnAssign(w))
  {
  }

  lemma StepKeepsOwner(w: Worker, a: Action)
    requires OnceSound(w) && OwnerSound(w)
    ensures OwnerSound(Step(w, a))
  {
    match a
    case Save(fate) => SaveKeepsOwner(w, fate);
    case Attempt(answer, tag, image) => AttemptKeepsOwner(w, answer, tag, image);
    case Begin(approved, plan) => BeginKeepsOwner(w, approved, plan);
    case Assign => AssignKeepsOwner(w);
    case _ =>
  }

  lemma {:induction false} OwnersStaySound(history: seq<Action>)
    ensures OwnerSound(After(history))
  {
    if history != [] {
      var before, a := history[..|history| - 1], history[|history| - 1];
      OwnersStaySound(before);
      OnceStaysSound(before);
      StepKeepsOwner(After(before), a);
    }
  }

  /******* What was written since a record was taken *******/

  /** The action writes the state document. */
  predicate Writes(w: Worker, a: Action) {
    match a
    case Save(fate) => Saving(w.pc) && fate != Broken(false)
    case Heartbeat(fate) => !w.pc.Down? && !Booting(w.pc) && fate != Broken(false)
    case _ => false
  }

  predicate Takes(w: Worker, a: Action) {
    w.pc.Recording? && a.Attempt? && a.answer.Done?
  }

  /** The operation that took its record in this process, if nothing was written since. */
  function Pending(history: seq<Action>): Option<Id> {
    if history == [] then None
    else
      var front, a := history[..|history| - 1], history[|history| - 1];
      NextPending(After(front), a, Pending(front))
  }

  function NextPending(w: Worker, a: Action, pending: Option<Id>): Option<Id> {
    if Writes(w, a) || Step(w, a).pc.Down? then None
    else if Takes(w, a) then Some(OpId(w.mem))
    else pending
  }

  /** The operations after whose record something was written before the process died. */
  function Kept(history: seq<Action>): set<Id> {
    if history == [] then {}
    else
      var front, a := history[..|history| - 1], history[|history| - 1];
      NextKept(After(front), a, Pending(front), Kept(front))
  }

  function NextKept(w: Worker, a: Action, pending: Option<Id>, kept: set<Id>): set<Id> {
    if Writes(w, a) && pending.Some? then kept + {pending.value} else kept
  }

  /** A document's record is a kept one, and is the operation's own if that was kept. */
  predicate DocKept(doc: Doc, kept: set<Id>) {
    && (doc.record.Some? ==> doc.record.value.owner in kept)
    && (doc.operation.Some? && OpId(doc) in kept ==> Owns(doc))
  }

  predicate DocsKept(w: Worker, pending: Option<Id>, kept: set<Id>) {
    && DocKept(w.disk, kept)
    && (w.pc.Down? ==> pending.None?)
    && (if pending.None? then DocKept(w.mem, kept)
        else
          && w.mem.record.Some? && w.mem.record.value.owner == pending.value && pending.value !in kept
          && (w.mem.operation.Some? && OpId(w.mem) in kept + {pending.value} ==> Owns(w.mem)))
  }

  ghost predicate KeptSound(w: Worker, pending: Option<Id>, kept: set<Id>) {
    && DocsKept(w, pending, kept)
    && (forall id :: id in kept || pending == Some(id) ==> HasBegun(w.trace, id))
  }

  lemma BegunForever(w: Worker, a: Action, id: Id)
    requires HasBegun(w.trace, id)
    ensures HasBegun(Step(w, a).trace, id)
  {
    var w' := Step(w, a);
    if w'.trace != w.trace {
      assert w'.trace == w.trace + [w'.trace[|w.trace|]];
    }
  }

  lemma SaveKeepsDocs(w: Worker, fate: Fate, pending: Option<Id>, kept: set<Id>)
    requires DocsKept(w, pending, kept)
    ensures var a := Save(fate); DocsKept(Step(w, a), NextPending(w, a, pending), NextKept(w, a, pending, kept))
  {
    var doc := Stamp(w.pc, w.mem);
    assert doc.record == w.mem.record && OpId(doc) == OpId(w.mem);
  }

  lemma AttemptKeepsDocs(w: Worker, answer: Answer, tag: Tag, image: ImageId, pending: Option<Id>, kept: set<Id>)
    requires OwnerSound(w) && DocsKept(w, pending, kept)
    ensures var a := Attempt(answer, tag, image);
      DocsKept(Step(w, a), NextPending(w, a, pending), NextKept(w, a, pending, kept))
  {
    if w.pc.Recording? {
      assert pending.None? && OpId(w.mem) !in kept;
    }
  }

  lemma DocsStayKept(w: Worker, a: Action, pending: Option<Id>, kept: set<Id>)
    requires OnceSound(w) && OwnerSound(w) && KeptSound(w, pending, kept)
    ensures DocsKept(Step(w, a), NextPending(w, a, pending), NextKept(w, a, pending, kept))
  {
    match a
    case Save(fate) => SaveKeepsDocs(w, fate, pending, kept);
    case Attempt(answer, tag, image) => AttemptKeepsDocs(w, answer, tag, image, pending, kept);
    case _ =>
  }

  lemma StepKeepsKept(w: Worker, a: Action, pending: Option<Id>, kept: set<Id>)
    requires OnceSound(w) && OwnerSound(w) && KeptSound(w, pending, kept)
    ensures KeptSound(Step(w, a), NextPending(w, a, pending), NextKept(w, a, pending, kept))
  {
    DocsStayKept(w, a, pending, kept);
    forall id | id in NextKept(w, a, pending, kept) || NextPending(w, a, pending) == Some(id)
      ensures HasBegun(Step(w, a).trace, id)
    {
      BegunForever(w, a, id);
    }
  }

  lemma {:induction false} KeptStaysSound(history: seq<Action>)
    ensures KeptSound(After(history), Pending(history), Kept(history))
  {
    if history != [] {
      var front, a := history[..|history| - 1], history[|history| - 1];
      KeptStaysSound(front);
      OnceStaysSound(front);
      OwnersStaySound(front);
      StepKeepsKept(After(front), a, Pending(front), Kept(front));
    }
  }

  /** The process dies, at whatever point of whatever history, and starts again. What it
      restores by itself, if anything, is the interrupted operation's own record if and
      only if something was written after that record was taken. */
  lemma CrashPointDecidesTheRestore(history: seq<Action>)
    ensures var w := After(history); var booted := OnBoot(Dead(w));
      booted.pc.Restoring? ==>
        && booted.pc.cause == Restarted(OpId(w.disk))
        && booted.mem.record.Some?
        && (booted.mem.record.value.owner == booted.pc.cause.id <==> booted.pc.cause.id in Kept(history))
  {
    KeptStaysSound(history);
  }

  /** During an install this means: never its own before it takes its record, always its
      own from the stop until the target is marked, and between the record and the save
      that announces the stop, its own exactly if a heartbeat has written since. */
  lemma CrashPointsOfAnInstall(history: seq<Action>)
    ensures var w := After(history);
      && (BeforeRecord(w.pc) ==> OpId(w.disk) == OpId(w.mem) && OpId(w.disk) !in Kept(history))
      && (BeforeStop(w.pc) ==>
            OpId(w.disk) == OpId(w.mem) && (OpId(w.disk) in Kept(history) <==> Pending(history) != Some(OpId(w.mem))))
      && (BeforeTarget(w.pc) ==> OpId(w.disk) in Kept(history))
  {
    KeptStaysSound(history);
    OwnersStaySound(history);
  }

  /** The heartbeat decides: from the same point of the same install a death before it
      restores another record, and a death after it the install's own. */
  lemma HeartbeatDecides(history: seq<Action>)
    requires BeforeStop(After(history).pc) && Pending(history) == Some(OpId(After(history).mem))
    ensures var beat := history + [Heartbeat(Written)];
      && After(beat) == After(history).(disk := After(history).mem, reports := After(beat).reports)
      && OpId(After(history).disk) !in Kept(history)
      && OpId(After(beat).disk) in Kept(beat)
  {
    KeptStaysSound(history);
    OwnersStaySound(history);
    var beat := history + [Heartbeat(Written)];
    assert beat[..|beat| - 1] == history;
  }
}
