/**
 The update worker as an object. Its fields are the state document in memory, the
 copies on disk and the program counter; every assignment, save and host operation
 is a method that changes them, lets the heartbeat or a crash interfere, and logs
 the steps it took. `install`, `rollback`, `process` and the start of the service
 are then ordinary programs over these methods, and `Valid` says that whatever
 they did is a history of the transition system, so its results hold of them.
 Answers of the host and of the storage are unconstrained.
 */
module UpdateServiceModel {
  import opened Prelude
  import opened UpdateSteps
  import opened UpdateSafety
  import opened UpdateRecords
  import opened UpdateOnce

  datatype Request = Request(id: Id, kind: Kind, approved: bool, plan: PlanId)

  /** How a call came back: normally, with an exception, or not at all. */
  datatype Outcome = Returned | Raised | Dead

  class UpdateService {
    var mem: Doc
    var disk: Doc
    var reports: set<Id>
    var consumed: set<PlanId>
    var pc: Pc
    ghost var trace: seq<Event>
    ghost var log: seq<Action>

    ghost function State(): Worker
      reads this
    {
      Worker(mem, disk, reports, consumed, pc, trace)
    }

    /** What the object did is a history of steps. */
    ghost predicate Valid()
      reads this
    {
      State() == After(log)
    }

    constructor ()
      ensures Valid() && pc == Down && log == []
    {
      var doc := Doc(None, false, false, false, None);
      mem, disk, reports, consumed, pc, trace, log := doc, doc, {}, {}, Down, [], [];
    }

    /** Adds one step to the log; the fields already hold its result. */
    ghost method Log(w: Worker, a: Action)
      requires w == After(log) && State() == Step(w, a)
      modifies this`log
      ensures Valid() && log == old(log) + [a]
    {
      log := log + [a];
      assert log[..|log| - 1] == old(log);
    }

    /******* Interference *******/

    method Die()
      requires Valid()
      modifies this
      ensures Valid() && pc == Down && old(log) <= log
    {
      ghost var w := State();
      mem, pc := disk, Down;
      Log(w, Crash);
    }

    /** The heartbeat thread may have saved the document, and the process may have died. */
    method Pause() returns (alive: bool)
      requires Valid() && pc != Down
      modifies this
      ensures Valid() && old(log) <= log
      ensures alive ==> pc == old(pc) && mem == old(mem) && trace == old(trace)
      ensures !alive ==> pc == Down
    {
      alive := *;
      if !alive {
        Die();
        return;
      }
      var beat: bool := *;
      var whole: bool := *;
      if beat && !Booting(pc) {
        ghost var w := State();
        disk := mem;
        if whole && mem.operation.Some? {
          reports := reports + {mem.operation.value.id};
        }
        Log(w, Heartbeat(if whole then Written else Broken(true)));
      }
    }

    /** An assignment to the document in memory. */
    method Set(doc: Doc, next: Pc) returns (o: Outcome)
      requires Valid() && pc != Down
      requires OnAssign(State()) == State().(mem := doc, pc := next)
      modifies this
      ensures Valid() && old(log) <= log && !o.Raised?
      ensures if o.Dead? then pc == Down else pc == next && mem == doc && trace == old(trace)
    {
      var alive := Pause();
      if !alive {
        return Dead;
      }
      ghost var w := State();
      mem, pc := doc, next;
      Log(w, Assign);
      o := Returned;
    }

    /** `event` and `save`: the status in memory, the state document, the report. */
    method Event() returns (o: Outcome)
      requires Valid() && Saving(pc)
      modifies this
      ensures Valid() && old(log) <= log
      ensures match o
        case Dead => pc == Down
        case Raised => pc == AfterSaveError(old(pc)) && pc != Down && mem == Stamp(old(pc), old(mem))
        case Returned => pc == AfterSave(old(State())) && mem == disk == Stamp(old(pc), old(mem))
    {
      var alive := Pause();
      if !alive {
        return Dead;
      }
      ghost var w := State();
      mem := Stamp(pc, mem);
      var stored: bool := *;
      var reported: bool := *;
      var dies: bool := *;
      if stored {
        disk := mem;
      }
      if stored && dies {
        pc := Down;
        Log(w, Save(Died));
        return Dead;
      }
      if !stored || !reported {
        pc := AfterSaveError(pc);
        o := Raised;
        if pc.Down? {
          mem := disk;
          o := Dead;
        }
        Log(w, Save(Broken(stored)));
        return;
      }
      if mem.operation.Some? {
        reports := reports + {mem.operation.value.id};
      }
      if pc.Announcing? {
        trace := trace + [Began(OpId(mem))];
      }
      pc := NextAfterSave(pc, OpId(mem));
      Log(w, Save(Written));
      o := Returned;
    }

    /******* Host operations *******/

    method Recheck() returns (o: Outcome)
      requires Valid() && (pc.Rechecking? || pc.CheckingRollback?)
      modifies this
      ensures Valid() && old(log) <= log
      ensures match o
        case Dead => pc == Down
        case Raised => pc == Failing && mem == old(mem)
        case Returned => mem == old(mem) && pc == if old(pc).Rechecking? then Consuming(old(pc).plan) else AnnouncingRollback
    {
      var alive := Pause();
      if !alive {
        return Dead;
      }
      ghost var w := State();
      var ok: bool := *;
      if !ok {
        pc := Failing;
        Log(w, Attempt(Refused, 0, 0));
        return Raised;
      }
      pc := if pc.Rechecking? then Consuming(pc.plan) else AnnouncingRollback;
      Log(w, Attempt(Done, 0, 0));
      o := Returned;
    }

    /** The plan is marked as used before anything depends on it. */
    method Consume() returns (o: Outcome)
      requires Valid() && pc.Consuming?
      modifies this
      ensures Valid() && old(log) <= log
      ensures match o
        case Dead => pc == Down
        case Raised => pc == Failing && mem == old(mem)
        case Returned => pc == Recording(old(pc).plan) && mem == old(mem) && old(pc).plan in consumed
    {
      var alive := Pause();
      if !alive {
        return Dead;
      }
      ghost var w := State();
      var plan, answer := pc.plan, Done;
      answer := *;
      pc := if answer.Done? then Recording(plan) else Failing;
      if !answer.Refused? {
        consumed := consumed + {plan};
      }
      Log(w, Attempt(answer, 0, 0));
      o := if answer.Done? then Returned else Raised;
    }

    /** Staging, the checks of the running image, and its record in memory. */
    method TakeRecord() returns (o: Outcome)
      requires Valid() && pc.Recording?
      modifies this
      ensures Valid() && old(log) <= log
      ensures match o
        case Dead => pc == Down
        case Raised => pc == Failing && mem == old(mem)
        case Returned =>
          && pc == Flagging(old(pc).plan) && mem.record.Some? && mem == old(mem).(record := mem.record)
          && mem.record.value.owner == OpId(old(mem))
    {
      var alive := Pause();
      if !alive {
        return Dead;
      }
      ghost var w := State();
      var ok: bool := *;
      if !ok {
        pc := Failing;
        Log(w, Attempt(Refused, 0, 0));
        return Raised;
      }
      var tag: Tag := *;
      var image: ImageId := *;
      trace := trace + [Recorded(OpId(mem), tag, image)];
      mem := mem.(record := Some(Record(OpId(mem), tag, image, false)));
      pc := Flagging(pc.plan);
      Log(w, Attempt(Done, tag, image));
      o := Returned;
    }

    method Stop() returns (o: Outcome)
      requires Valid() && pc.Stopping?
      modifies this
      ensures Valid() && old(log) <= log
      ensures match o
        case Dead => pc == Down
        case Raised => pc == Recovering && mem == old(mem)
        case Returned => pc == BackingUp && mem == old(mem) && trace == old(trace) + [Stopped(OpId(mem), old(pc).plan)]
    {
      var alive := Pause();
      if !alive {
        return Dead;
      }
      ghost var w := State();
      var answer: Answer := *;
      if !answer.Refused? {
        trace := trace + [Stopped(OpId(mem), pc.plan)];
      }
      pc := if answer.Done? then BackingUp else Recovering;
      Log(w, Attempt(answer, 0, 0));
      o := if answer.Done? then Returned else Raised;
    }

    method Backup() returns (o: Outcome)
      requires Valid() && pc.BackingUp? && mem.record.Some?
      modifies this
      ensures Valid() && old(log) <= log
      ensures match o
        case Dead => pc == Down
        case Raised => pc == Recovering && mem == old(mem)
        case Returned => pc == SavingReceipt && mem == old(mem).(record := Some(old(mem).record.value.(receipt := true)))
    {
      var alive := Pause();
      if !alive {
        return Dead;
      }
      ghost var w := State();
      var ok: bool := *;
      if !ok {
        pc := Recovering;
        Log(w, Attempt(Refused, 0, 0));
        return Raised;
      }
      mem := mem.(record := Some(mem.record.value.(receipt := true)));
      pc := SavingReceipt;
      Log(w, Attempt(Done, 0, 0));
      o := Returned;
    }

    /** Loads the image and renders the configuration; nothing is started yet. */
    method Load() returns (o: Outcome)
      requires Valid() && pc.Loading?
      modifies this
      ensures Valid() && old(log) <= log
      ensures match o
        case Dead => pc == Down
        case Raised => pc == Recovering && mem == old(mem)
        case Returned => pc.MarkingTarget? && mem == old(mem)
    {
      var alive := Pause();
      if !alive {
        return Dead;
      }
      ghost var w := State();
      var ok: bool := *;
      if !ok {
        pc := Recovering;
        Log(w, Attempt(Refused, 0, 0));
        return Raised;
      }
      var tag: Tag := *;
      var image: ImageId := *;
      pc := MarkingTarget(tag, image);
      Log(w, Attempt(Done, tag, image));
      o := Returned;
    }

    method StartTarget() returns (o: Outcome)
      requires Valid() && pc.StartingTarget?
      modifies this
      ensures Valid() && old(log) <= log
      ensures match o
        case Dead => pc == Down
        case Raised => pc == Recovering && mem == old(mem)
        case Returned => pc == AnnouncingCheck(old(pc).image) && mem == old(mem)
    {
      var alive := Pause();
      if !alive {
        return Dead;
      }
      ghost var w := State();
      var answer: Answer := *;
      if !answer.Refused? {
        trace := trace + [Started(pc.tag, Target(OpId(mem)))];
      }
      pc := if answer.Done? then AnnouncingCheck(pc.image) else Recovering;
      Log(w, Attempt(answer, 0, 0));
      o := if answer.Done? then Returned else Raised;
    }

    /** `restore_image`: starts the retained image. */
    method RestoreImage() returns (o: Outcome)
      requires Valid() && pc.Restoring? && mem.record.Some?
      modifies this
      ensures Valid() && old(log) <= log
      ensures match o
        case Dead => pc == Down
        case Raised => pc == AfterHostError(old(pc).cause) && mem == old(mem)
        case Returned => pc == Verifying(old(pc).cause, old(mem).record.value.image) && mem == old(mem)
    {
      var alive := Pause();
      if !alive {
        return Dead;
      }
      ghost var w := State();
      var answer: Answer := *;
      var cause := pc.cause;
      if !answer.Refused? {
        trace := trace + [Started(mem.record.value.tag, cause)];
      }
      pc := if answer.Done? then Verifying(cause, mem.record.value.image) else AfterHostError(cause);
      Log(w, Attempt(answer, 0, 0));
      o := if answer.Done? then Returned else Raised;
    }

    method Verify() returns (o: Outcome)
      requires Valid() && pc.Verifying?
      modifies this
      ensures Valid() && old(log) <= log
      ensures match o
        case Dead => pc == Down
        case Raised => pc == AfterHostError(old(pc).cause) && mem == old(mem)
        case Returned => pc == Clearing(old(pc).cause) && mem == old(mem)
    {
      var alive := Pause();
      if !alive {
        return Dead;
      }
      ghost var w := State();
      var ok: bool := *;
      if !ok {
        pc := AfterHostError(pc.cause);
        Log(w, Attempt(Refused, 0, 0));
        return Raised;
      }
      trace := trace + [Verified(pc.image, pc.cause)];
      pc := Clearing(pc.cause);
      Log(w, Attempt(Done, 0, 0));
      o := Returned;
    }

    /******* Operations *******/

    /** Enters the body of the operation: its first checks, and maintenance. */
    method BeginBody(approved: bool, plan: PlanId) returns (o: Outcome)
      requires Valid() && pc.Begun? && mem.operation.Some?
      modifies this
      ensures Valid() && old(log) <= log && mem.operation == old(mem).operation && mem.record == old(mem).record
      ensures o.Returned? <==>
        approved && !(KindIs(mem, Kind.Install) && plan in old(consumed)) && !(KindIs(mem, Rollback) && mem.record.None?)
      ensures match o
        case Dead => false
        case Raised => pc == Failing
        case Returned =>
             match mem.operation.value.kind
             case Install => pc == Locking(plan) && mem == old(mem).(maintenance := true)
             case Rollback => pc == LockingRollback && mem == old(mem).(maintenance := true) && mem.record.Some?
             case _ => pc == Reporting && mem == old(mem)
    {
      ghost var w := State();
      var kind := mem.operation.value.kind;
      var refused := !approved || (kind == Kind.Install && plan in consumed) || (kind == Rollback && mem.record.None?);
      if refused {
        pc := Failing;
        o := Raised;
      } else {
        o := Returned;
        if kind == Kind.Install {
          mem := mem.(maintenance := true);
          pc := Locking(plan);
        } else if kind == Rollback {
          trace := trace + [Approved(OpId(mem))];
          mem := mem.(maintenance := true);
          pc := LockingRollback;
        } else {
          pc := Reporting;
        }
      }
      Log(w, Begin(approved, plan));
    }

    /** Stops the application and backs up its data. */
    method BackUpStopped() returns (o: Outcome)
      requires Valid() && pc.Stopping? && KindIs(mem, Kind.Install) && mem.record.Some?
      modifies this
      ensures Valid() && old(log) <= log
      ensures match o
        case Dead => pc == Down
        case Raised => pc == Recovering && mem.record.Some?
        case Returned => pc == SavingReceipt && KindIs(mem, Kind.Install) && mem.record.Some? && mem.record.value.receipt
    {
      o := Stop();
      if !o.Returned? { return; }
      o := Backup();
    }

    /** Saves the receipt, then announces the load of the new image. */
    method SaveReceipt() returns (o: Outcome)
      requires Valid() && pc.SavingReceipt? && KindIs(mem, Kind.Install) && mem.record.Some?
      modifies this
      ensures Valid() && old(log) <= log
      ensures match o
        case Dead => pc == Down
        case Raised => pc == Recovering && mem.record.Some?
        case Returned => pc == Loading && KindIs(mem, Kind.Install) && mem.record.Some? && disk == mem
    {
      o := Event();
      if !o.Returned? { return; }
      o := Event();
    }

    /** Loads the image and says in memory that the target may run. */
    method MarkTarget() returns (o: Outcome)
      requires Valid() && pc.Loading? && KindIs(mem, Kind.Install) && mem.record.Some?
      modifies this
      ensures Valid() && old(log) <= log
      ensures match o
        case Dead => pc == Down
        case Raised => pc == Recovering && mem == old(mem)
        case Returned => pc.AnnouncingStart? && mem == old(mem).(targetStarted := true)
    {
      o := Load();
      if !o.Returned? { return; }
      o := Set(mem.(targetStarted := true), AnnouncingStart(pc.tag, pc.image));
    }

    /** Saves that the target may run, then starts it. */
    method SwitchImage() returns (o: Outcome)
      requires Valid() && pc.AnnouncingStart? && KindIs(mem, Kind.Install) && mem.record.Some? && mem.targetStarted
      modifies this
      ensures Valid() && old(log) <= log
      ensures match o
        case Dead => pc == Down
        case Raised => pc == Recovering && mem.record.Some?
        case Returned => pc.AnnouncingCheck? && KindIs(mem, Kind.Install) && mem.record.Some? && mem.targetStarted
    {
      o := Event();
      if !o.Returned? { return; }
      o := StartTarget();
    }

    method CheckTarget() returns (o: Outcome)
      requires Valid() && pc.AnnouncingCheck? && KindIs(mem, Kind.Install) && mem.record.Some? && mem.targetStarted
      modifies this
      ensures Valid() && old(log) <= log
      ensures match o
        case Dead => pc == Down
        case Raised => pc == Recovering && mem.record.Some?
        case Returned => pc == Clearing(Target(OpId(mem))) && KindIs(mem, Kind.Install) && mem.record.Some? && mem.targetStarted
    {
      o := Event();
      if !o.Returned? { return; }
      o := Verify();
    }

    method Complete() returns (o: Outcome)
      requires Valid() && pc == Clearing(Target(OpId(mem))) && mem.record.Some? && mem.targetStarted
      modifies this
      ensures Valid() && old(log) <= log
      ensures match o
        case Dead => pc == Down
        case Raised => pc == Recovering && mem.record.Some?
        case Returned => pc == Idle && disk == mem && !mem.maintenance && mem.targetStarted
    {
      o := Release(pc.cause);
      if !o.Returned? { return; }
      o := Event();
    }

    /** From the stop to the verified target; every exception leads to `Recover`. */
    method CutOver() returns (o: Outcome)
      requires Valid() && pc.Stopping? && KindIs(mem, Kind.Install) && mem.record.Some?
      modifies this
      ensures Valid() && old(log) <= log
      ensures match o
        case Dead => pc == Down
        case Raised => pc == Recovering && mem.record.Some?
        case Returned => pc == Idle && disk == mem && !mem.maintenance && mem.targetStarted
    {
      o := BackUpStopped();
      if !o.Returned? { return; }
      o := SaveReceipt();
      if !o.Returned? { return; }
      o := MarkTarget();
      if !o.Returned? { return; }
      o := SwitchImage();
      if !o.Returned? { return; }
      o := CheckTarget();
      if !o.Returned? { return; }
      o := Complete();
    }

    /** The two assignments after a verification. */
    method Release(cause: Cause) returns (o: Outcome)
      requires Valid() && pc == Clearing(cause)
      modifies this
      ensures Valid() && old(log) <= log && !o.Raised?
      ensures if o.Dead? then pc == Down else
        && mem == old(mem).(mayBeStopped := false, maintenance := false)
        && pc == AfterRelease(cause)
    {
      o := Set(mem.(mayBeStopped := false), Unlocking(cause));
      if !o.Returned? { return; }
      o := Set(mem.(maintenance := false), AfterRelease(cause));
    }

    /** Starts the retained image, verifies it and ends the maintenance. */
    method RestoreAndRelease(cause: Cause) returns (o: Outcome)
      requires Valid() && pc == Restoring(cause) && mem.record.Some?
      modifies this
      ensures Valid() && old(log) <= log
      ensures match o
        case Dead => pc == Down
        case Raised => pc == AfterHostError(cause) && mem == old(mem)
        case Returned => pc == AfterRelease(cause) && mem == old(mem).(mayBeStopped := false, maintenance := false)
    {
      o := RestoreImage();
      if !o.Returned? { return; }
      o := Verify();
      if !o.Returned? { return; }
      o := Release(cause);
    }

    /** The handler of a failed cutover: without a started target the recorded
        image is restored; with one the maintenance stays. */
    method Recover() returns (o: Outcome)
      requires Valid() && pc.Recovering? && mem.record.Some?
      modifies this
      ensures Valid() && old(log) <= log && !o.Returned?
      ensures pc == if o.Dead? then Down else Failing
      ensures old(mem).targetStarted && o.Raised? ==> mem == old(mem) && trace == old(trace)
    {
      if mem.targetStarted {
        o := Set(mem, Failing);
      } else {
        var cause := Restored(OpId(mem));
        o := Set(mem, Restoring(cause));
        if !o.Returned? { return; }
        o := RestoreAndRelease(cause);
      }
      if o.Returned? {
        o := Raised;
      }
    }

    /** An install up to the event that announces the stop. */
    method PrepareInstall(approved: bool, plan: PlanId) returns (o: Outcome)
      requires Valid() && pc.Begun? && KindIs(mem, Kind.Install)
      modifies this
      ensures Valid() && old(log) <= log
      ensures match o
        case Dead => pc == Down
        case Raised => pc == Failing
        case Returned =>
          approved && pc == Flagging(plan) && KindIs(mem, Kind.Install) && mem.record.Some? && mem.record.value.owner == OpId(mem)
    {
      o := BeginBody(approved, plan);
      if !o.Returned? { return; }
      o := Event();
      if !o.Returned? { return; }
      o := Recheck();
      if !o.Returned? { return; }
      o := Consume();
      if !o.Returned? { return; }
      o := TakeRecord();
    }

    /** Flags that the application may be stopped, and saves that with the record. */
    method AnnounceStop() returns (o: Outcome)
      requires Valid() && pc.Flagging? && KindIs(mem, Kind.Install) && mem.record.Some?
      modifies this
      ensures Valid() && old(log) <= log
      ensures match o
        case Dead => pc == Down
        case Raised => pc == Failing
        case Returned => pc == Stopping(old(pc).plan) && KindIs(mem, Kind.Install) && disk == mem && mem.mayBeStopped && mem.record.Some?
    {
      o := Set(mem.(mayBeStopped := true), AnnouncingStop(pc.plan));
      if !o.Returned? { return; }
      o := Event();
    }

    method Install(approved: bool, plan: PlanId) returns (o: Outcome)
      requires Valid() && pc.Begun? && KindIs(mem, Kind.Install)
      modifies this
      ensures Valid() && old(log) <= log
      ensures match o
        case Dead => pc == Down
        case Raised => pc == Failing
        case Returned => approved && pc == Idle && disk == mem && !mem.maintenance && mem.targetStarted
    {
      o := PrepareInstall(approved, plan);
      if !o.Returned? { return; }
      o := AnnounceStop();
      if !o.Returned? { return; }
      o := CutOver();
      if o.Raised? {
        o := Recover();
      }
    }

    /** The checks of a rollback, under maintenance. */
    method CheckRollback(approved: bool) returns (o: Outcome)
      requires Valid() && pc.Begun? && KindIs(mem, Rollback)
      modifies this
      ensures Valid() && old(log) <= log
      ensures match o
        case Dead => pc == Down
        case Raised => pc == Failing
        case Returned => approved && pc == AnnouncingRollback && KindIs(mem, Rollback) && mem.record.Some?
    {
      o := BeginBody(approved, 0);
      if !o.Returned? { return; }
      o := Event();
      if !o.Returned? { return; }
      o := Recheck();
    }

    method RollBack(approved: bool) returns (o: Outcome)
      requires Valid() && pc.Begun? && KindIs(mem, Rollback)
      modifies this
      ensures Valid() && old(log) <= log
      ensures match o
        case Dead => pc == Down
        case Raised => pc == Failing
        case Returned => approved && pc == Idle && disk == mem && !mem.maintenance && !mem.mayBeStopped
    {
      o := CheckRollback(approved);
      if !o.Returned? { return; }
      o := Event();
      if !o.Returned? { return; }
      o := RestoreAndFinish(pc.cause);
    }

    method RestoreAndFinish(cause: Cause) returns (o: Outcome)
      requires Valid() && pc == Restoring(cause) && cause.RolledBack? && mem.record.Some?
      modifies this
      ensures Valid() && old(log) <= log
      ensures match o
        case Dead => pc == Down
        case Raised => pc == Failing
        case Returned => pc == Idle && disk == mem && !mem.maintenance && !mem.mayBeStopped
    {
      o := RestoreAndRelease(cause);
      if !o.Returned? { return; }
      o := Event();
    }

    /** The operation is put into memory. */
    method ClaimRequest(id: Id, kind: Kind)
      requires Valid() && pc.Idle? && id !in reports && (mem.maintenance ==> kind == Rollback)
      modifies this
      ensures Valid() && old(log) <= log && pc == Claimed
      ensures mem == old(mem).(operation := Some(Operation(id, kind, Running)))
    {
      ghost var w := State();
      mem, pc := mem.(operation := Some(Operation(id, kind, Running))), Claimed;
      Log(w, Claim(id, kind));
    }

    /** And its acceptance is saved. */
    method Accept(id: Id, kind: Kind) returns (o: Outcome)
      requires Valid() && pc.Idle? && id !in reports && (mem.maintenance ==> kind == Rollback)
      modifies this
      ensures Valid() && old(log) <= log
      ensures match o
        case Dead => pc == Down
        case Raised => pc == Idle
        case Returned => pc == Begun && KindIs(mem, kind) && OpId(mem) == id && disk == mem
    {
      ClaimRequest(id, kind);
      o := Set(if mem.maintenance then mem else mem.(targetStarted := false), Announcing);
      if !o.Returned? { return; }
      o := Event();
    }

    /** The handler of a failed request: an untouched host leaves maintenance. */
    method ReportFailure() returns (o: Outcome)
      requires Valid() && pc.Failing?
      modifies this
      ensures Valid() && old(log) <= log && pc == if o.Dead? then Down else Idle
    {
      var release := !mem.targetStarted && !mem.mayBeStopped && !KindIs(mem, Rollback);
      o := Set(if release then mem.(maintenance := false) else mem, ReportingFailure);
      if !o.Returned? { return; }
      o := Event();
    }

    /** The body of an accepted operation. */
    method Perform(approved: bool, plan: PlanId) returns (o: Outcome)
      requires Valid() && pc.Begun? && mem.operation.Some?
      modifies this
      ensures Valid() && old(log) <= log
      ensures pc == match o
        case Dead => Down
        case Raised => Failing
        case Returned => Idle
    {
      match mem.operation.value.kind
      case Install => o := Install(approved, plan);
      case Rollback => o := RollBack(approved);
      case _ =>
        o := BeginBody(approved, plan);
        if o.Returned? {
          o := Event();
        }
    }

    /** One request. `approved` and `plan` stand for its payload. */
    method Process(id: Id, kind: Kind, approved: bool, plan: PlanId)
      requires Valid() && pc.Idle?
      modifies this
      ensures Valid() && old(log) <= log && (pc.Idle? || pc.Down?)
      ensures id in old(reports) || (old(mem).maintenance && kind != Rollback) ==> State() == old(State()) && log == old(log)
    {
      if id in reports || (mem.maintenance && kind != Rollback) {
        return;
      }
      var o := Accept(id, kind);
      if !o.Returned? { return; }
      o := Perform(approved, plan);
      if o.Raised? {
        o := ReportFailure();
      }
    }

    /** Reads the document; a request that was running must be settled. */
    method ReadState()
      requires Valid() && pc.Down?
      modifies this
      ensures Valid() && old(log) <= log && mem == disk == old(disk) && trace == old(trace)
      ensures pc == OnBoot(old(State())).pc
    {
      ghost var w := State();
      mem := disk;
      if mem.operation.None? || mem.operation.value.status != Running {
        pc := Idle;
      } else if mem.maintenance && !mem.targetStarted && mem.record.Some? {
        pc := Restoring(Restarted(OpId(mem)));
      } else {
        pc := Interrupting;
      }
      Log(w, Boot);
    }

    /** A new process: an interrupted operation is reported, and its application
        restored when no new version was started; the exception of a failed
        restore is swallowed. */
    method Start()
      requires Valid() && pc.Down?
      modifies this
      ensures Valid() && old(log) <= log && (pc.Idle? || pc.Down?)
    {
      ReadState();
      if pc.Restoring? {
        var restored := RestoreAndRelease(pc.cause);
      }
      if pc.Interrupting? {
        var reported := Event();
      }
    }

    /** The main loop over the requests it finds; after each death the service is
        started again. Whatever happened, no new automation is let in while the
        application is stopped or unverified, no request ran twice, and every
        start of an image is accounted for. */
    method Serve(requests: seq<Request>)
      requires Valid() && (pc.Idle? || pc.Down?)
      modifies this
      ensures Valid() && old(log) <= log && (pc.Idle? || pc.Down?)
      ensures !mem.maintenance || !disk.maintenance ==> Settled(trace)
      ensures NoRepeats(trace) && AllJustified(trace)
    {
      for k := 0 to |requests|
        invariant Valid() && old(log) <= log && (pc.Idle? || pc.Down?)
      {
        if pc.Down? {
          Start();
        }
        if pc.Idle? {
          Process(requests[k].id, requests[k].kind, requests[k].approved, requests[k].plan);
        }
      }
      UnlockedMeansSettled(log);
      OnceStaysSound(log);
      StartsAreJustified(log);
    }
  }
}
