/**
 The retained rollback record is never cleared. An install that is interrupted
 while it rechecks readiness, before it records the running image, is therefore
 "restored" at the next start to the image an earlier install recorded, although
 it stopped nothing.
 */
module UpdateStaleRecord {
  import opened Prelude
  import opened UpdateSteps
  import opened UpdateRecords

  /** A history and the worker it leads to, grown one action at a time. */
  datatype Path = Path(history: seq<Action>, w: Worker)

  ghost predicate Real(p: Path) {
    After(p.history) == p.w
  }

  lemma Then(p: Path, a: Action) returns (q: Path)
    requires Real(p)
    ensures Real(q) && q.w == Step(p.w, a)
  {
    q := Path(p.history + [a], Step(p.w, a));
    assert q.history[..|q.history| - 1] == p.history;
  }

  /** An idle worker outside maintenance that may take request `id` on plan `plan`. */
  predicate Available(w: Worker, id: Id, plan: PlanId) {
    w.pc.Idle? && !w.mem.maintenance && !w.mem.mayBeStopped && id !in w.reports && plan !in w.consumed
  }

  /** The document of a running install. */
  function Working(id: Id, started: bool, stopped: bool, record: Option<Record>): Doc {
    Doc(Some(Operation(id, Install, Running)), true, started, stopped, record)
  }

  /** The readiness event of an install is reached without a host operation. */
  lemma ReadinessReached(p: Path, id: Id, plan: PlanId) returns (q: Path)
    requires Real(p) && Available(p.w, id, plan)
    ensures Real(q)
    ensures var doc := Working(id, false, false, p.w.mem.record);
      q.w == Worker(doc, doc, p.w.reports + {id}, p.w.consumed, Rechecking(plan), p.w.trace + [Began(id)])
  {
    q := Then(p, Claim(id, Install));
    q := Then(q, Assign);
    q := Then(q, Save(Written));
    q := Then(q, Begin(true, plan));
    assert q.w.pc == Locking(plan);
    q := Then(q, Save(Written));
    assert q.w.reports == p.w.reports + {id};
  }

  /** With good answers an install uses up its plan, records the running image ... */
  lemma RecordTaken(p: Path, id: Id, plan: PlanId, tag: Tag, image: ImageId) returns (q: Path)
    requires Real(p) && p.w.pc == Rechecking(plan)
    requires p.w.mem == p.w.disk == Working(id, false, false, p.w.mem.record)
    ensures Real(q)
    ensures q.w == Worker(Working(id, false, false, Some(Record(id, tag, image, false))), p.w.disk, p.w.reports,
                          p.w.consumed + {plan}, Flagging(plan), p.w.trace + [Recorded(id, tag, image)])
  {
    q := Then(p, Attempt(Done, 0, 0));
    q := Then(q, Attempt(Done, 0, 0));
    q := Then(q, Attempt(Done, tag, image));
  }

  /** ... and stops the application. */
  lemma StopReached(p: Path, id: Id, plan: PlanId, record: Record) returns (q: Path)
    requires Real(p) && p.w.pc == Flagging(plan) && id in p.w.reports
    requires p.w.mem == Working(id, false, false, Some(record))
    ensures Real(q)
    ensures var doc := Working(id, false, true, Some(record));
      q.w == Worker(doc, doc, p.w.reports, p.w.consumed, BackingUp, p.w.trace + [Stopped(id, plan)])
  {
    q := Then(p, Assign);
    q := Then(q, Save(Written));
    assert q.w.reports == p.w.reports;
    q := Then(q, Attempt(Done, 0, 0));
  }

  /** Then it backs up the data and starts the target. */
  lemma TargetReached(p: Path, id: Id, tag: Tag, image: ImageId, target: Tag, expected: ImageId) returns (q: Path)
    requires Real(p) && p.w.pc == BackingUp && id in p.w.reports
    requires p.w.mem == p.w.disk == Working(id, false, true, Some(Record(id, tag, image, false)))
    ensures Real(q)
    ensures var doc := Working(id, true, true, Some(Record(id, tag, image, true)));
      q.w == Worker(doc, doc, p.w.reports, p.w.consumed, AnnouncingCheck(expected), p.w.trace + [Started(target, Target(id))])
  {
    q := BackupSaved(p, id, tag, image);
    q := Then(q, Attempt(Done, target, expected));
    q := Then(q, Assign);
    q := Then(q, Save(Written));
    assert q.w.reports == p.w.reports;
    q := Then(q, Attempt(Done, 0, 0));
  }

  lemma BackupSaved(p: Path, id: Id, tag: Tag, image: ImageId) returns (q: Path)
    requires Real(p) && p.w.pc == BackingUp && id in p.w.reports
    requires p.w.mem == p.w.disk == Working(id, false, true, Some(Record(id, tag, image, false)))
    ensures Real(q)
    ensures var doc := Working(id, false, true, Some(Record(id, tag, image, true)));
      q.w == Worker(doc, doc, p.w.reports, p.w.consumed, Loading, p.w.trace)
  {
    q := Then(p, Attempt(Done, 0, 0));
    q := Then(q, Save(Written));
    assert q.w.reports == p.w.reports;
    q := Then(q, Save(Written));
    assert q.w.reports == p.w.reports;
  }

  /** And verifies it, which ends the maintenance. */
  lemma TargetVerified(p: Path, id: Id, expected: ImageId) returns (q: Path)
    requires Real(p) && p.w.pc == AnnouncingCheck(expected) && id in p.w.reports
    requires p.w.mem == p.w.disk == Working(id, true, true, p.w.mem.record)
    ensures Real(q)
    ensures q.w == Worker(p.w.mem, p.w.mem, p.w.reports, p.w.consumed, Clearing(Target(id)),
                          p.w.trace + [Verified(expected, Target(id))])
  {
    q := Then(p, Save(Written));
    assert q.w.reports == p.w.reports;
    q := Then(q, Attempt(Done, 0, 0));
  }

  lemma CompletionReached(p: Path, id: Id) returns (q: Path)
    requires Real(p) && p.w.pc == Clearing(Target(id)) && id in p.w.reports
    requires p.w.mem == Working(id, true, true, p.w.mem.record)
    ensures Real(q)
    ensures var doc := Doc(Some(Operation(id, Install, Succeeded)), false, true, false, p.w.mem.record);
      q.w == Worker(doc, doc, p.w.reports, p.w.consumed, Idle, p.w.trace)
  {
    q := Then(p, Assign);
    q := Then(q, Assign);
    q := Then(q, Save(Written));
    assert q.w.reports == p.w.reports;
  }

  /** An install whose host operations all succeed ends unlocked, with the target
      verified and the previously running image retained. */
  lemma InstallSucceeds(p: Path, id: Id, plan: PlanId, tag: Tag, image: ImageId, target: Tag, expected: ImageId)
    returns (q: Path)
    requires Real(p) && Available(p.w, id, plan)
    ensures Real(q)
    ensures var doc := Doc(Some(Operation(id, Install, Succeeded)), false, true, false, Some(Record(id, tag, image, true)));
      q.w == Worker(doc, doc, p.w.reports + {id}, p.w.consumed + {plan}, Idle,
                    p.w.trace + [Began(id), Recorded(id, tag, image), Stopped(id, plan), Started(target, Target(id)),
                                 Verified(expected, Target(id))])
  {
    q := ReadinessReached(p, id, plan);
    q := RecordTaken(q, id, plan, tag, image);
    q := StopReached(q, id, plan, Record(id, tag, image, false));
    q := TargetReached(q, id, tag, image, target, expected);
    q := TargetVerified(q, id, expected);
    q := CompletionReached(q, id);
  }

  /** A crash while an install rechecks readiness, and the restart after it, start
      the image of whatever record is retained. */
  lemma InterruptedReadinessRestoresOldRecord(p: Path, id: Id, plan: PlanId) returns (q: Path)
    requires Real(p) && Available(p.w, id, plan) && p.w.mem.record.Some?
    ensures Real(q) && q.w.trace == p.w.trace + [Began(id), Started(p.w.mem.record.value.tag, Restarted(id))]
  {
    q := ReadinessReached(p, id, plan);
    q := Then(q, Crash);
    q := Then(q, Boot);
    q := Then(q, Attempt(Done, 0, 0));
  }

  /** So restoring only the image recorded for the interrupted install is not what
      a restart does: a first install replaces image 10 by 20; a second is
      interrupted during readiness; the restart starts 10, although the second
      install recorded nothing and stopped nothing. */
  lemma RestartRestoresAnEarlierInstallsImage() returns (history: seq<Action>)
    ensures var trace := After(history).trace;
      && trace == [Began(1), Recorded(1, 10, 100), Stopped(1, 7), Started(20, Target(1)), Verified(200, Target(1)),
                   Began(2), Started(10, Restarted(2))]
      && forall image :: !RecordedBy(trace, 2, 10, image)
  {
    var p := Path([], Init());
    p := Then(p, Boot);
    p := InstallSucceeds(p, 1, 7, 10, 100, 20, 200);
    p := InterruptedReadinessRestoresOldRecord(p, 2, 8);
    history := p.history;
  }
}
