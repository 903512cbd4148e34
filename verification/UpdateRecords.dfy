/**
 Which image the update worker starts, and why, over every history: each start
 and each verification in the trace is accounted for by what precedes it.
 */
module UpdateRecords {
  import opened Prelude
  import opened UpdateSteps
  import opened UpdateSafety

  /** Install `id` recorded the image as the one that was running. */
  ghost predicate RecordedBy(trace: seq<Event>, id: Id, tag: Tag, image: ImageId) {
    Recorded(id, tag, image) in trace
  }

  ghost predicate LastStartIs(trace: seq<Event>, cause: Cause) {
    LastHost(trace).Some? && LastHost(trace).value.Started? && LastHost(trace).value.cause == cause
  }

  /** Some install recorded this tag. */
  ghost predicate RecordedTag(trace: seq<Event>, tag: Tag) {
    exists id, image :: RecordedBy(trace, id, tag, image)
  }

  /** What must precede a start or a verification. */
  ghost predicate Justified(before: seq<Event>, e: Event) {
    match e
    case Started(tag, cause) =>
      && (Exposed(before) ==> cause.RolledBack?)
      && (match cause
          case Target(id) => exists tag', image :: RecordedBy(before, id, tag', image)
          case Restored(id) => exists image :: RecordedBy(before, id, tag, image)
          case RolledBack(id) => Approved(id) in before && RecordedTag(before, tag)
          case Restarted(_) => RecordedTag(before, tag))
    case Verified(image, cause) =>
      && LastStartIs(before, cause)
      && (cause.Restored? ==> exists tag :: RecordedBy(before, cause.id, tag, image))
      && (!cause.Target? ==> exists id, tag :: RecordedBy(before, id, tag, image))
    case _ => true
  }

  ghost predicate AllJustified(trace: seq<Event>) {
    forall j :: 0 <= j < |trace| ==> Justified(trace[..j], trace[j])
  }

  lemma OneMoreJustified(trace: seq<Event>, e: Event)
    requires AllJustified(trace) && Justified(trace, e)
    ensures AllJustified(trace + [e])
  {
    forall j | 0 <= j < |trace + [e]|
      ensures Justified((trace + [e])[..j], (trace + [e])[j])
    {
      assert (trace + [e])[..j] == trace[..j];
      assert trace[..|trace|] == trace;
    }
  }

  /** The retained record was really taken, and a document that says its install
      may have stopped the application carries that install's record. */
  ghost predicate RecordKnown(doc: Doc, trace: seq<Event>) {
    && (doc.record.Some? ==> RecordedBy(trace, doc.record.value.owner, doc.record.value.tag, doc.record.value.image))
    && (KindIs(doc, Install) && doc.mayBeStopped ==> doc.record.Some? && doc.record.value.owner == OpId(doc))
  }

  predicate OwnRecord(w: Worker) {
    w.mem.record.Some? && w.mem.record.value.owner == OpId(w.mem)
  }

  ghost predicate PcRecorded(w: Worker) {
    match w.pc
    case Flagging(_) => OwnRecord(w)
    case AnnouncingStop(_) => OwnRecord(w)
    case Stopping(_) => OwnRecord(w)
    case BackingUp => OwnRecord(w)
    case SavingReceipt => OwnRecord(w)
    case AnnouncingLoad => OwnRecord(w)
    case Loading => OwnRecord(w)
    case MarkingTarget(_, _) => OwnRecord(w)
    case AnnouncingStart(_, _) => OwnRecord(w)
    case StartingTarget(_, _) => OwnRecord(w)
    case AnnouncingCheck(_) => LastStartIs(w.trace, Target(OpId(w.mem)))
    case Recovering => !w.mem.targetStarted ==> OwnRecord(w)
    case LockingRollback => Approved(OpId(w.mem)) in w.trace
    case CheckingRollback => Approved(OpId(w.mem)) in w.trace
    case AnnouncingRollback => Approved(OpId(w.mem)) in w.trace
    case Restoring(cause) =>
      && cause.id == OpId(w.mem)
      && (cause.RolledBack? ==> Approved(cause.id) in w.trace)
      && (cause.Restored? ==> OwnRecord(w))
      && (cause.Restarted? ==> w.mem == w.disk)
    case Verifying(cause, image) =>
      && LastStartIs(w.trace, cause)
      && (cause.Restored? ==> OwnRecord(w) && cause.id == OpId(w.mem))
      && (!cause.Target? ==> w.mem.record.Some? && image == w.mem.record.value.image)
    case _ => true
  }

  ghost predicate DocsKnown(w: Worker) {
    RecordKnown(w.mem, w.trace) && RecordKnown(w.disk, w.trace)
  }

  ghost predicate RecordSound(w: Worker) {
    DocsKnown(w) && PcRecorded(w)
  }

  lemma HostExtended(trace: seq<Event>, e: Event)
    ensures LastHost(trace + [e]) == if e.Stopped? || e.Started? || e.Verified? then Some(e) else LastHost(trace)
  {
    assert (trace + [e])[..|trace + [e]| - 1] == trace;
  }

  lemma KnownForLonger(doc: Doc, trace: seq<Event>, e: Event)
    requires RecordKnown(doc, trace)
    ensures RecordKnown(doc, trace + [e])
  {
  }

  lemma StepKeepsDocs(w: Worker, a: Action)
    requires w.mem.mayBeStopped ==> w.mem.maintenance
    requires RecordSound(w)
    ensures DocsKnown(Step(w, a))
  {
    if a.Attempt? {
      AttemptKeepsDocs(w, a.answer, a.tag, a.image);
    } else if a.Save? && w.pc.Announcing? {
      KnownForLonger(w.mem, w.trace, Began(OpId(w.mem)));
      KnownForLonger(w.disk, w.trace, Began(OpId(w.mem)));
    } else if a.Begin? {
      KnownForLonger(w.mem, w.trace, Approved(OpId(w.mem)));
      KnownForLonger(w.disk, w.trace, Approved(OpId(w.mem)));
    }
  }

  lemma AttemptKeepsDocs(w: Worker, answer: Answer, tag: Tag, image: ImageId)
    requires RecordSound(w)
    ensures DocsKnown(OnAttempt(w, answer, tag, image))
  {
    var w' := OnAttempt(w, answer, tag, image);
    if w'.trace != w.trace {
      var e := w'.trace[|w.trace|];
      assert w'.trace == w.trace + [e];
      KnownForLonger(w.mem, w.trace, e);
      KnownForLonger(w.disk, w.trace, e);
    }
  }

  /** While the target is verified the document says that it was started; the
      target is never what a restore starts. */
  predicate TargetMarked(w: Worker) {
    && (w.pc.Verifying? && w.pc.cause.Target? ==> w.mem.targetStarted)
    && (w.pc.Restoring? ==> !w.pc.cause.Target?)
  }

  lemma SaveKeepsPc(w: Worker, fate: Fate)
    requires LockSound(w) && RecordSound(w)
    ensures PcRecorded(OnSave(w, fate))
  {
    if fate.Written? {
      WriteKeepsPc(w);
    }
  }

  lemma WriteKeepsPc(w: Worker)
    requires LockSound(w) && RecordSound(w)
    ensures PcRecorded(OnSave(w, Written))
  {
    if w.pc.Announcing? {
      HostExtended(w.trace, Began(OpId(Stamp(w.pc, w.mem))));
    }
  }

  lemma AttemptKeepsPc(w: Worker, answer: Answer, tag: Tag, image: ImageId)
    requires TargetMarked(w) && RecordSound(w)
    ensures PcRecorded(OnAttempt(w, answer, tag, image))
  {
    match w.pc
    case StartingTarget(target, _) => HostExtended(w.trace, Started(target, Target(OpId(w.mem))));
    case Restoring(cause) =>
      if w.mem.record.Some? {
        HostExtended(w.trace, Started(w.mem.record.value.tag, cause));
      }
    case _ =>
  }

  lemma AssignKeepsPc(w: Worker)
    requires LockSound(w) && RecordSound(w)
    ensures PcRecorded(OnAssign(w))
  {
  }

  lemma BeginKeepsPc(w: Worker, approved: bool, plan: PlanId)
    requires LockSound(w) && RecordSound(w)
    ensures PcRecorded(OnBegin(w, approved, plan))
  {
  }

  lemma StepKeepsPc(w: Worker, a: Action)
    requires LockSound(w) && RecordSound(w)
    ensures PcRecorded(Step(w, a))
  {
    match a
    case Save(fate) => SaveKeepsPc(w, fate);
    case Attempt(answer, tag, image) => AttemptKeepsPc(w, answer, tag, image);
    case Assign => AssignKeepsPc(w);
    case Begin(approved, plan) => BeginKeepsPc(w, approved, plan);
    case _ =>
  }

  /** Every start and verification is accounted for when it happens. */
  lemma AttemptIsJustified(w: Worker, answer: Answer, tag: Tag, image: ImageId)
    requires LockSound(w) && RecordSound(w)
    ensures var w' := OnAttempt(w, answer, tag, image);
      w'.trace == w.trace || (w'.trace == w.trace + [w'.trace[|w.trace|]] && Justified(w.trace, w'.trace[|w.trace|]))
  {
    ExposedIsUnsettled(w.trace);
  }

  lemma StepIsJustified(w: Worker, a: Action)
    requires LockSound(w) && RecordSound(w) && AllJustified(w.trace)
    ensures AllJustified(Step(w, a).trace)
  {
    var w' := Step(w, a);
    if a.Attempt? {
      AttemptIsJustified(w, a.answer, a.tag, a.image);
    }
    if w'.trace != w.trace {
      var e := w'.trace[|w.trace|];
      assert w'.trace == w.trace + [e];
      OneMoreJustified(w.trace, e);
    }
  }

  lemma {:induction false} RecordsStaySound(history: seq<Action>)
    ensures RecordSound(After(history)) && AllJustified(After(history).trace)
  {
    if history != [] {
      var before, a := history[..|history| - 1], history[|history| - 1];
      RecordsStaySound(before);
      LockStaysSound(before);
      StepKeepsDocs(After(before), a);
      StepKeepsPc(After(before), a);
      StepIsJustified(After(before), a);
    }
  }

  /** Every start and every verification in every history is accounted for: a new
      version starts only after its install recorded the running image; a failed
      install restores exactly what it recorded; an image is verified right after
      it was started; and nothing but a rollback follows an unverified target. */
  lemma StartsAreJustified(history: seq<Action>)
    ensures AllJustified(After(history).trace)
  {
    RecordsStaySound(history);
  }

  /** Whenever a step stops the application, the lock, the flag and the record that this
      very install took of the running image are durable; whenever one starts a new
      version, so are the lock, the record and the fact that the version may have run. */
  lemma EffectsAreAnnounced(history: seq<Action>, a: Action)
    ensures var w := After(history); var w' := Step(w, a);
      |w'.trace| > |w.trace| ==>
        && w'.trace[..|w.trace|] == w.trace
        && var e := w'.trace[|w.trace|];
        && (e.Stopped? ==> w.disk == w.mem && w.disk.maintenance && w.disk.mayBeStopped && RecordDurable(w, e.id))
        && (e.Started? ==> w.disk.maintenance)
        && (e.Started? && e.cause.Target? ==>
              w.disk == w.mem && w.disk.targetStarted && OpId(w.disk) == e.cause.id && RecordDurable(w, e.cause.id))
  {
    LockStaysSound(history);
    RecordsStaySound(history);
  }

  /** The record on disk is the one install `id` took. */
  ghost predicate RecordDurable(w: Worker, id: Id) {
    && OpId(w.disk) == id && w.disk.record.Some? && w.disk.record.value.owner == id
    && RecordedBy(w.trace, id, w.disk.record.value.tag, w.disk.record.value.image)
  }

  /** What a restart starts by itself is the retained record. It is the interrupted
      install's own record whenever that install's flag `applicationMayBeStopped` is
      durable; without the flag it need not be (see `UpdateStaleRecord`). */
  lemma RestartRestoresTheRecord(history: seq<Action>)
    requires After(history).pc.Restoring? && After(history).pc.cause.Restarted?
    requires After(history).mem.record.Some?
    ensures var w := After(history); var record := w.mem.record.value;
      && w.pc.cause.id == OpId(w.disk)
      && OnAttempt(w, Done, 0, 0).trace == w.trace + [Started(record.tag, w.pc.cause)]
      && RecordedBy(w.trace, record.owner, record.tag, record.image)
      && (KindIs(w.disk, Install) && w.disk.mayBeStopped ==> record.owner == w.pc.cause.id)
  {
    RecordsStaySound(history);
  }
}
