/**
 The maintenance lock of the update worker over every history of steps,
 heartbeats, crashes and restarts: while the lock is off the application is not
 left stopped or unverified, a new version starts only when the fact that it may
 run is durable, and from then on only an approved rollback starts an image.
 */
module UpdateSafety {
  import opened Prelude
  import opened UpdateSteps

  predicate Locked(w: Worker) {
    w.mem.maintenance && w.disk.maintenance
  }

  /** The old application may be stopped and no new one was started. */
  predicate InTry(w: Worker) {
    Locked(w) && w.mem.mayBeStopped && !Exposed(w.trace)
  }

  predicate CauseFits(w: Worker, cause: Cause) {
    match cause
    case Target(_) => w.mem.mayBeStopped && w.mem.targetStarted
    case Restored(_) => w.mem.mayBeStopped
    case RolledBack(_) => KindIs(w.mem, Rollback)
    case Restarted(_) => true
  }

  /** What the lock and the flags say at each point of the program. */
  ghost predicate PcLocked(w: Worker) {
    match w.pc
    case Claimed => KindIs(w.mem, Rollback) || Settled(w.trace)
    case Announcing => KindIs(w.mem, Rollback) || Settled(w.trace)
    case Begun => KindIs(w.mem, Rollback) || Settled(w.trace)
    case Locking(_) => w.mem.maintenance && Settled(w.trace)
    case Rechecking(_) => Locked(w) && Settled(w.trace)
    case Consuming(_) => Locked(w) && Settled(w.trace)
    case Recording(_) => Locked(w) && Settled(w.trace)
    case Flagging(_) => Locked(w) && Settled(w.trace)
    case AnnouncingStop(_) => Locked(w) && Settled(w.trace) && w.mem.mayBeStopped
    case Stopping(_) => Locked(w) && Settled(w.trace) && w.mem.mayBeStopped && w.disk == w.mem
    case BackingUp => InTry(w)
    case SavingReceipt => InTry(w)
    case AnnouncingLoad => InTry(w)
    case Loading => InTry(w)
    case MarkingTarget(_, _) => InTry(w)
    case AnnouncingStart(_, _) => InTry(w) && w.mem.targetStarted
    case StartingTarget(_, _) => InTry(w) && w.mem.targetStarted && w.disk == w.mem
    case AnnouncingCheck(_) => Locked(w) && w.mem.mayBeStopped && w.mem.targetStarted
    case Recovering => w.mem.targetStarted || (Locked(w) && w.mem.mayBeStopped)
    case LockingRollback => w.mem.maintenance && KindIs(w.mem, Rollback)
    case CheckingRollback => Locked(w) && KindIs(w.mem, Rollback)
    case AnnouncingRollback => Locked(w) && KindIs(w.mem, Rollback)
    case Restoring(cause) => Locked(w) && !cause.Target? && (cause.RolledBack? || !Exposed(w.trace)) && CauseFits(w, cause)
    case Verifying(cause, _) => Locked(w) && CauseFits(w, cause)
    case Clearing(cause) => Settled(w.trace) && (cause.Target? ==> w.mem.targetStarted)
    case Unlocking(cause) => Settled(w.trace) && !w.mem.mayBeStopped && (cause.Target? ==> w.mem.targetStarted)
    case Completing(cause) => Settled(w.trace) && (cause.Target? ==> w.mem.targetStarted)
    case _ => true
  }

  /** Between the claim of a request and its final report. */
  predicate Working(pc: Pc) {
    !pc.Down? && !pc.Idle? && !pc.ReportingFailure? && !Booting(pc)
  }

  ghost predicate LockSound(w: Worker) {
    && (!Settled(w.trace) ==> Locked(w))
    && (Exposed(w.trace) ==> w.mem.targetStarted && w.disk.targetStarted)
    && (w.mem.mayBeStopped ==> w.mem.maintenance)
    && (w.disk.mayBeStopped ==> w.disk.maintenance)
    && (Working(w.pc) ==> KindIs(w.mem, Rollback) || w.mem.mayBeStopped || Settled(w.trace))
    && PcLocked(w)
  }

  lemma {:induction false} ExposedIsUnsettled(trace: seq<Event>)
    ensures Exposed(trace) ==> !Settled(trace)
  {
    if trace != [] {
      ExposedIsUnsettled(trace[..|trace| - 1]);
    }
  }

  /** One more event. */
  lemma Extended(trace: seq<Event>, e: Event)
    ensures Settled(trace + [e]) == (e.Verified? || (!e.Stopped? && !e.Started? && Settled(trace)))
    ensures Exposed(trace + [e]) == (!e.Verified? && ((e.Started? && e.cause.Target?) || Exposed(trace)))
  {
    assert (trace + [e])[..|trace + [e]| - 1] == trace;
  }

  lemma SaveKeepsLock(w: Worker, fate: Fate)
    requires LockSound(w)
    ensures LockSound(OnSave(w, fate))
  {
    if w.pc.Announcing? {
      Extended(w.trace, Began(OpId(Stamp(w.pc, w.mem))));
    }
    ExposedIsUnsettled(w.trace);
  }

  lemma AssignKeepsLock(w: Worker)
    requires LockSound(w)
    ensures LockSound(OnAssign(w))
  {
    ExposedIsUnsettled(w.trace);
  }

  lemma BeginKeepsLock(w: Worker, approved: bool, plan: PlanId)
    requires LockSound(w)
    ensures LockSound(OnBegin(w, approved, plan))
  {
    Extended(w.trace, Approved(OpId(w.mem)));
  }

  lemma AttemptKeepsLock(w: Worker, answer: Answer, tag: Tag, image: ImageId)
    requires LockSound(w)
    ensures LockSound(OnAttempt(w, answer, tag, image))
  {
    if w.pc.Stopping? || w.pc.StartingTarget? || w.pc.Recording? {
      InstallKeepsLock(w, answer, tag, image);
    } else if w.pc.Restoring? {
      RestoreKeepsLock(w, w.pc.cause, answer, tag, image);
    } else if w.pc.Verifying? {
      Extended(w.trace, Verified(w.pc.image, w.pc.cause));
    }
  }

  lemma InstallKeepsLock(w: Worker, answer: Answer, tag: Tag, image: ImageId)
    requires LockSound(w) && (w.pc.Stopping? || w.pc.StartingTarget? || w.pc.Recording?)
    ensures LockSound(OnAttempt(w, answer, tag, image))
  {
    ExposedIsUnsettled(w.trace);
    match w.pc
    case Stopping(plan) => Extended(w.trace, Stopped(OpId(w.mem), plan));
    case StartingTarget(target, _) => Extended(w.trace, Started(target, Target(OpId(w.mem))));
    case Recording(_) => Extended(w.trace, Recorded(OpId(w.mem), tag, image));
  }

  lemma RestoreKeepsLock(w: Worker, cause: Cause, answer: Answer, tag: Tag, image: ImageId)
    requires LockSound(w) && w.pc == Restoring(cause)
    ensures LockSound(OnAttempt(w, answer, tag, image))
  {
    if w.mem.record.Some? {
      Extended(w.trace, Started(w.mem.record.value.tag, cause));
    }
  }

  lemma StepKeepsLock(w: Worker, a: Action)
    requires LockSound(w)
    ensures LockSound(Step(w, a))
  {
    match a
    case Save(fate) => SaveKeepsLock(w, fate);
    case Assign => AssignKeepsLock(w);
    case Begin(approved, plan) => BeginKeepsLock(w, approved, plan);
    case Attempt(answer, tag, image) => AttemptKeepsLock(w, answer, tag, image);
    case _ => ExposedIsUnsettled(w.trace);
  }

  lemma {:induction false} LockStaysSound(history: seq<Action>)
    ensures LockSound(After(history))
  {
    if history != [] {
      LockStaysSound(history[..|history| - 1]);
      StepKeepsLock(After(history[..|history| - 1]), history[|history| - 1]);
    }
  }

  /** While the lock is off, in memory or on disk, no container was stopped or
      started since the last verification, and the document says so. */
  lemma UnlockedMeansSettled(history: seq<Action>)
    ensures var w := After(history);
      && (!w.mem.maintenance ==> Settled(w.trace) && !w.mem.mayBeStopped)
      && (!w.disk.maintenance ==> Settled(w.trace) && !w.disk.mayBeStopped)
  {
    LockStaysSound(history);
  }

  /** After a new version was started, and until an image is verified, the only
      step that can start an image is a rollback. */
  lemma OnlyRollbackAfterTarget(history: seq<Action>, a: Action)
    ensures var w := After(history); var w' := Step(w, a);
      Exposed(w.trace) && |w'.trace| > |w.trace| && w'.trace[|w.trace|].Started? ==> w'.trace[|w.trace|].cause.RolledBack?
  {
    LockStaysSound(history);
  }
}
