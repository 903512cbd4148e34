/**
 The appliance update worker as a transition system. The worker keeps one state
 document in memory and a copy of it on disk; a heartbeat thread copies the one
 to the other at any moment, and the process can die between any two steps or in
 the middle of a save. Each step of the worker is one assignment, one save or one
 host operation, taken where the program counter allows it; the answers of the
 host are parameters of the action.
 */
module UpdateSteps {
  import opened Prelude

  type Id = nat
  type PlanId = nat
  type Tag = nat
  type ImageId = nat

  datatype Kind = Storage | Preflight | Cleanup | Install | Rollback

  datatype OpStatus = Running | Succeeded | Failed | Interrupted

  datatype Operation = Operation(id: Id, kind: Kind, status: OpStatus)

  /** The retained image; `owner` labels the install that recorded it (the label
      is the model's, the stored record does not carry it). */
  datatype Record = Record(owner: Id, tag: Tag, image: ImageId, receipt: bool)

  datatype Doc = Doc(operation: Option<Operation>, maintenance: bool, targetStarted: bool, mayBeStopped: bool,
                     record: Option<Record>)

  /** Why an image was started. */
  datatype Cause = Target(id: Id) | Restored(id: Id) | RolledBack(id: Id) | Restarted(id: Id)

  datatype Event =
    | Began(id: Id)
    | Recorded(id: Id, tag: Tag, image: ImageId)
    | Approved(id: Id)
    | Stopped(id: Id, plan: PlanId)
    | Started(tag: Tag, cause: Cause)
    | Verified(image: ImageId, cause: Cause)

  /** The next thing the worker does. Constructors named after an announcement
      stand before the save of that event. */
  datatype Pc =
    | Down | Idle
    | Claimed | Announcing | Begun | Reporting | Failing | ReportingFailure
    | Locking(plan: PlanId) | Rechecking(plan: PlanId) | Consuming(plan: PlanId) | Recording(plan: PlanId)
    | Flagging(plan: PlanId) | AnnouncingStop(plan: PlanId) | Stopping(plan: PlanId)
    | BackingUp | SavingReceipt | AnnouncingLoad | Loading
    | MarkingTarget(tag: Tag, image: ImageId) | AnnouncingStart(tag: Tag, image: ImageId)
    | StartingTarget(tag: Tag, image: ImageId) | AnnouncingCheck(image: ImageId)
    | Recovering
    | LockingRollback | CheckingRollback | AnnouncingRollback
    | Restoring(cause: Cause) | Verifying(cause: Cause, image: ImageId)
    | Clearing(cause: Cause) | Unlocking(cause: Cause) | Completing(cause: Cause)
    | Interrupting

  datatype Worker = Worker(mem: Doc, disk: Doc, reports: set<Id>, consumed: set<PlanId>, pc: Pc, trace: seq<Event>)

  /** A save writes the state document first and the operation's report last. */
  datatype Fate = Written | Broken(stored: bool) | Died

  /** A host operation is refused before it has an effect, breaks after it may
      have had one, or succeeds. */
  datatype Answer = Refused | Broke | Done

  datatype Action =
    | Claim(id: Id, kind: Kind)
    | Assign
    | Save(fate: Fate)
    | Begin(approved: bool, plan: PlanId)
    | Attempt(answer: Answer, tag: Tag, image: ImageId)
    | Heartbeat(fate: Fate)
    | Crash
    | Boot

  function Init(): Worker {
    var doc := Doc(None, false, false, false, None);
    Worker(doc, doc, {}, {}, Down, [])
  }

  function OpId(doc: Doc): Id {
    if doc.operation.Some? then doc.operation.value.id else 0
  }

  predicate KindIs(doc: Doc, kind: Kind) {
    doc.operation.Some? && doc.operation.value.kind == kind
  }

  function Emit(w: Worker, e: Event): Worker {
    w.(trace := w.trace + [e])
  }

  function Dead(w: Worker): Worker {
    w.(mem := w.disk, pc := Down)
  }

  /** The service starts while its constructor runs; the heartbeat does not yet. */
  predicate Booting(pc: Pc) {
    pc.Interrupting? || ((pc.Restoring? || pc.Verifying? || pc.Clearing? || pc.Unlocking? || pc.Completing?) && pc.cause.Restarted?)
  }

  /******* Saving *******/

  predicate Saving(pc: Pc) {
    match pc
    case Announcing => true
    case Reporting => true
    case ReportingFailure => true
    case Locking(_) => true
    case AnnouncingStop(_) => true
    case SavingReceipt => true
    case AnnouncingLoad => true
    case AnnouncingStart(_, _) => true
    case AnnouncingCheck(_) => true
    case LockingRollback => true
    case AnnouncingRollback => true
    case Completing(_) => true
    case Interrupting => true
    case _ => false
  }

  function NewStatus(pc: Pc, earlier: OpStatus): OpStatus {
    match pc
    case SavingReceipt => earlier
    case Reporting => Succeeded
    case Completing(_) => Succeeded
    case ReportingFailure => Failed
    case Interrupting => Interrupted
    case _ => Running
  }

  function Stamp(pc: Pc, doc: Doc): Doc {
    if doc.operation.None? then doc
    else doc.(operation := Some(doc.operation.value.(status := NewStatus(pc, doc.operation.value.status))))
  }

  function AfterSave(w: Worker): Pc {
    NextAfterSave(w.pc, OpId(w.mem))
  }

  function NextAfterSave(pc: Pc, id: Id): Pc {
    match pc
    case Announcing => Begun
    case Locking(plan) => Rechecking(plan)
    case AnnouncingStop(plan) => Stopping(plan)
    case SavingReceipt => AnnouncingLoad
    case AnnouncingLoad => Loading
    case AnnouncingStart(tag, image) => StartingTarget(tag, image)
    case AnnouncingCheck(image) => Verifying(Target(id), image)
    case LockingRollback => CheckingRollback
    case AnnouncingRollback => Restoring(RolledBack(id))
    case _ => Idle
  }

  /** Where an exception of the save is caught. */
  function AfterSaveError(pc: Pc): Pc {
    match pc
    case Announcing => Idle
    case ReportingFailure => Idle
    case Interrupting => Down
    case SavingReceipt => Recovering
    case AnnouncingLoad => Recovering
    case AnnouncingStart(_, _) => Recovering
    case AnnouncingCheck(_) => Recovering
    case Completing(cause) => if cause.Target? then Recovering else Failing
    case _ => Failing
  }

  function Report(reports: set<Id>, doc: Doc): set<Id> {
    if doc.operation.Some? then reports + {doc.operation.value.id} else reports
  }

  function OnSave(w: Worker, fate: Fate): Worker {
    if !Saving(w.pc) then w
    else
      var doc := Stamp(w.pc, w.mem);
      match fate
      case Written =>
        w.(mem := doc, disk := doc, reports := Report(w.reports, doc), pc := AfterSave(w),
           trace := if w.pc.Announcing? then w.trace + [Began(OpId(doc))] else w.trace)
      case Broken(stored) =>
        var w' := w.(mem := doc, disk := if stored then doc else w.disk, pc := AfterSaveError(w.pc));
        if w'.pc.Down? then Dead(w') else w'
      case Died => Dead(w.(disk := doc))
  }

  function OnHeartbeat(w: Worker, fate: Fate): Worker {
    if w.pc.Down? || Booting(w.pc) then w
    else
      match fate
      case Written => w.(disk := w.mem, reports := Report(w.reports, w.mem))
      case Broken(stored) => if stored then w.(disk := w.mem) else w
      case Died => Dead(w.(disk := w.mem))
  }

  /******* Requests *******/

  /** `process` up to the new operation: a request with a report is not replayed,
      and under maintenance only a rollback is accepted. */
  function OnClaim(w: Worker, id: Id, kind: Kind): Worker {
    if !w.pc.Idle? || id in w.reports || (w.mem.maintenance && kind != Rollback) then w
    else w.(mem := w.mem.(operation := Some(Operation(id, kind, Running))), pc := Claimed)
  }

  /** The first checks of the operation's body. For an install `approved` covers the plan's
      age, purpose and confirmation; for a rollback the confirmation and the statement on the
      database; for the other requests the whole body, which touches no container. */
  function OnBegin(w: Worker, approved: bool, plan: PlanId): Worker {
    if !w.pc.Begun? || w.mem.operation.None? then w
    else
      match w.mem.operation.value.kind
      case Install =>
        if !approved || plan in w.consumed then w.(pc := Failing)
        else w.(mem := w.mem.(maintenance := true), pc := Locking(plan))
      case Rollback =>
        if !approved || w.mem.record.None? then w.(pc := Failing)
        else Emit(w, Approved(OpId(w.mem))).(mem := w.mem.(maintenance := true), pc := LockingRollback)
      case _ => w.(pc := if approved then Reporting else Failing)
  }

  /******* Assignments *******/

  /** Where a verified image leads once maintenance is over. */
  function AfterRelease(cause: Cause): Pc {
    if cause.Restored? then Failing else if cause.Restarted? then Interrupting else Completing(cause)
  }

  function OnAssign(w: Worker): Worker {
    match w.pc
    case Claimed =>
      w.(mem := if w.mem.maintenance then w.mem else w.mem.(targetStarted := false), pc := Announcing)
    case Flagging(plan) => w.(mem := w.mem.(mayBeStopped := true), pc := AnnouncingStop(plan))
    case MarkingTarget(tag, image) => w.(mem := w.mem.(targetStarted := true), pc := AnnouncingStart(tag, image))
    case Recovering => w.(pc := if w.mem.targetStarted then Failing else Restoring(Restored(OpId(w.mem))))
    case Clearing(cause) => w.(mem := w.mem.(mayBeStopped := false), pc := Unlocking(cause))
    case Unlocking(cause) =>
      w.(mem := w.mem.(maintenance := false), pc := AfterRelease(cause))
    case Failing =>
      var release := !w.mem.targetStarted && !w.mem.mayBeStopped && !KindIs(w.mem, Rollback);
      w.(mem := if release then w.mem.(maintenance := false) else w.mem, pc := ReportingFailure)
    case _ => w
  }

  /******* Host operations *******/

  /** Where an exception raised while restoring or verifying is caught. */
  function AfterHostError(cause: Cause): Pc {
    match cause
    case Target(_) => Recovering
    case Restarted(_) => Interrupting
    case _ => Failing
  }

  function OnAttempt(w: Worker, answer: Answer, tag: Tag, image: ImageId): Worker {
    var ok := answer.Done?;
    match w.pc
    case Rechecking(plan) => w.(pc := if ok then Consuming(plan) else Failing)
    case Consuming(plan) =>
      if answer.Refused? then w.(pc := Failing)
      else w.(consumed := w.consumed + {plan}, pc := if ok then Recording(plan) else Failing)
    case Recording(plan) =>
      if !ok then w.(pc := Failing)
      else Emit(w, Recorded(OpId(w.mem), tag, image)).(
             mem := w.mem.(record := Some(Record(OpId(w.mem), tag, image, false))), pc := Flagging(plan))
    case Stopping(plan) =>
      var w' := if answer.Refused? then w else Emit(w, Stopped(OpId(w.mem), plan));
      w'.(pc := if ok then BackingUp else Recovering)
    case BackingUp =>
      if !ok || w.mem.record.None? then w.(pc := Recovering)
      else w.(mem := w.mem.(record := Some(w.mem.record.value.(receipt := true))), pc := SavingReceipt)
    case Loading => w.(pc := if ok then MarkingTarget(tag, image) else Recovering)
    case StartingTarget(tag, image) =>
      var w' := if answer.Refused? then w else Emit(w, Started(tag, Target(OpId(w.mem))));
      w'.(pc := if ok then AnnouncingCheck(image) else Recovering)
    case CheckingRollback => w.(pc := if ok then AnnouncingRollback else Failing)
    case Restoring(cause) =>
      if w.mem.record.None? || answer.Refused? then w.(pc := AfterHostError(cause))
      else Emit(w, Started(w.mem.record.value.tag, cause)).(
             pc := if ok then Verifying(cause, w.mem.record.value.image) else AfterHostError(cause))
    case Verifying(cause, image) =>
      if ok then Emit(w, Verified(image, cause)).(pc := Clearing(cause)) else w.(pc := AfterHostError(cause))
    case _ => w
  }

  /******* Restart *******/

  function OnBoot(w: Worker): Worker {
    if !w.pc.Down? then w
    else if w.disk.operation.None? || w.disk.operation.value.status != Running then w.(mem := w.disk, pc := Idle)
    else if w.disk.maintenance && !w.disk.targetStarted && w.disk.record.Some? then
      w.(mem := w.disk, pc := Restoring(Restarted(OpId(w.disk))))
    else w.(mem := w.disk, pc := Interrupting)
  }

  function Step(w: Worker, a: Action): Worker {
    match a
    case Claim(id, kind) => OnClaim(w, id, kind)
    case Assign => OnAssign(w)
    case Save(fate) => OnSave(w, fate)
    case Begin(approved, plan) => OnBegin(w, approved, plan)
    case Attempt(answer, tag, image) => OnAttempt(w, answer, tag, image)
    case Heartbeat(fate) => OnHeartbeat(w, fate)
    case Crash => Dead(w)
    case Boot => OnBoot(w)
  }

  function After(history: seq<Action>): Worker {
    if history == [] then Init() else Step(After(history[..|history| - 1]), history[|history| - 1])
  }

  /******* What the trace says about the host *******/

  /** The last event that touched or checked the container. */
  function LastHost(trace: seq<Event>): Option<Event> {
    if trace == [] then None
    else
      var last := trace[|trace| - 1];
      if last.Stopped? || last.Started? || last.Verified? then Some(last) else LastHost(trace[..|trace| - 1])
  }

  /** No container was stopped or started since the last verification. */
  predicate Settled(trace: seq<Event>) {
    LastHost(trace).None? || LastHost(trace).value.Verified?
  }

  /** A new version was started and no image has been verified since. */
  predicate Exposed(trace: seq<Event>) {
    if trace == [] then false
    else match trace[|trace| - 1]
      case Started(_, cause) => cause.Target? || Exposed(trace[..|trace| - 1])
      case Verified(_, _) => false
      case _ => Exposed(trace[..|trace| - 1])
  }
}
