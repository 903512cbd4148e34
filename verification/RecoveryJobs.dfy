/**
 How many jobs of one run can be unfinished at once. A job is lost when the service
 queued it for a run but never stored its id: the process died between the submission
 and the save, or the submission was rejected after a job had been queued. With one
 live thread per run, two unfinished jobs of a run mean that one of them is lost, and
 reconciliation looks at every unfinished job exactly if none is.
 */
module RecoveryJobs {
  import opened Prelude
  import opened RecoveryIntent
  import opened RecoverySteps
  import opened RecoveryOwnership
  import opened RecoverySubmissions
  import opened RecoveryEvidence
  import opened RecoveryPrefix

  /** The job is known, and may still act on the cluster. */
  predicate Unfinished(w: World, j: JobId) {
    j in w.jobs && w.jobs[j].status !in TERMINAL_JOBS
  }

  predicate UnfinishedOf(w: World, j: JobId, r: nat) {
    Unfinished(w, j) && w.jobs[j].owner == Some(r)
  }

  /** The job whose id the holder of the lock is about to store. */
  function HeldJob(held: Held): Option<JobId> {
    if held.DeployAnswered? || held.StepAnswered? then held.job else None
  }

  /** No stored record will ever name the job. */
  predicate Lost(w: World, j: JobId) {
    j in w.unsaved && HeldJob(w.held) != Some(j)
  }

  /** The run is past its deployment and not stopped. */
  predicate Deployed(s: Status) {
    s.AwaitingHealth? || s.Ready? || s.AwaitingBootstrap? || s.Bootstrapping? || s.Configuring? || s.AwaitingAcceptance?
  }

  predicate Undeployed(s: Status) {
    s.Prepared? || s.Submitting?
  }

  /******* The invariant *******/

  predicate Issued(w: World, id: Option<JobId>) {
    id.Some? ==> id.value < w.nextJob
  }

  /** A stored job was queued for this run, and is not lost. */
  predicate Stored(w: World, r: nat, id: Option<JobId>) {
    Issued(w, id) && (id.Some? ==> id.value !in w.unsaved && (id.value in w.jobs ==> w.jobs[id.value].owner == Some(r)))
  }

  /** What a run's status says about its two stored jobs, and where its unfinished
      jobs are named. */
  ghost predicate RunJobs(w: World, r: nat)
    requires r < |w.runs|
  {
    var run := w.runs[r];
    && Stored(w, r, run.deploymentJob) && Stored(w, r, run.currentJob)
    && (Undeployed(run.status) ==> run.deploymentJob.None?)
    && (Undeployed(run.status) || run.status.Deploying? ==> run.currentJob.None?)
    && (Quiet(run.status) ==> JobIdle(w, run.currentJob))
    && (Deployed(run.status) || Closed(run.status) ==> JobIdle(w, run.deploymentJob))
    && (Closed(run.status) ==> JobIdle(w, run.currentJob))
    && (JobIdle(w, run.deploymentJob) || run.currentJob.None?)
    && forall j :: UnfinishedOf(w, j, r) && j !in w.unsaved ==> Some(j) == run.deploymentJob || Some(j) == run.currentJob
  }

  /** A live thread submits only after the stored job is idle, and waits for that job. */
  ghost predicate ThreadJob(w: World, k: nat) {
    k < |w.workers| && w.workers[k].run < |w.runs| ==>
      var current := w.runs[w.workers[k].run].currentJob;
      match w.workers[k].pc
      case Top => JobIdle(w, current)
      case Answered => JobIdle(w, current)
      case Polling(_, job) => current == Some(job)
      case Observed(_, job, _) => current == Some(job) && JobIdle(w, current)
      case _ => true
  }

  /** The run for which the lock is held. */
  function HeldRun(w: World): Option<nat> {
    match w.held
    case DeployAnswered(r, _, _) => Some(r)
    case StepAnswered(k, _, _) => if k < |w.workers| then Some(w.workers[k].run) else None
    case _ => None
  }

  predicate HeldOwned(w: World) {
    var id := HeldJob(w.held);
    Issued(w, id) && (id.Some? && id.value in w.jobs ==> w.jobs[id.value].owner == HeldRun(w))
  }

  ghost predicate JobsNamed(w: World) {
    && (forall r: nat :: r < |w.runs| ==> RunJobs(w, r))
    && (forall k: nat :: ThreadJob(w, k))
    && HeldOwned(w)
    && (forall j :: j in w.jobs ==> j < w.nextJob && (w.jobs[j].owner.Some? ==> w.jobs[j].owner.value < |w.runs|))
    && WorkersBelong(w)
  }

  /******* What a change does to jobs *******/

  /** The same job later: it keeps its owner and stays finished. */
  predicate Aged(before: Job, after: Job) {
    after.owner == before.owner && (before.status in TERMINAL_JOBS ==> after.status in TERMINAL_JOBS)
  }

  /** Jobs age; a new one is the run's and unsaved. */
  predicate Ages(w: World, c: Change) {
    && (c.nextJob == w.nextJob || c.nextJob == w.nextJob + 1)
    && (forall j :: j in c.jobs ==>
          || (j in w.jobs && Aged(w.jobs[j], c.jobs[j]))
          || (j == w.nextJob < c.nextJob && c.jobs[j].owner == Some(c.r) && j in c.unsaved))
  }

  /** An id is stored only from the holder, and leaves the unsaved ones only so. */
  predicate Stores(w: World, c: Change)
    requires c.r < |w.runs|
  {
    var run := w.runs[c.r];
    && (c.run.deploymentJob != run.deploymentJob ==>
          w.held.DeployAnswered? && run.status.Submitting? && c.run.deploymentJob == w.held.job && HeldRun(w) == Some(c.r)
          && w.held.job.Some? && w.held.job.value !in c.unsaved)
    && (c.run.currentJob != run.currentJob ==>
          w.held.StepAnswered? && c.run.currentJob == w.held.job && c.thread.Moves? && c.thread.worker == w.held.worker
          && w.held.job.Some? && w.held.job.value !in c.unsaved)
    && (forall j :: j in c.unsaved ==> j in w.unsaved || j == w.nextJob)
    && (forall j :: j in w.unsaved && j !in c.unsaved ==>
          HeldJob(w.held) == Some(j) && HeldRun(w) == Some(c.r) && (c.run.deploymentJob == Some(j) || c.run.currentJob == Some(j)))
    && (HeldJob(c.held).Some? ==>
          || c.held == w.held
          || (HeldJob(c.held) == Some(w.nextJob) && c.nextJob == w.nextJob + 1
              && (c.held.DeployAnswered? ==> c.held.run == c.r)
              && (c.held.StepAnswered? ==> c.thread.Moves? && c.thread.worker == c.held.worker)))
  }

  /** How the status may move, given which jobs are idle. */
  predicate Advances(w: World, c: Change)
    requires Fits(w, c)
  {
    var run := w.runs[c.r];
    && (Undeployed(c.run.status) ==> Undeployed(run.status) && c.run.deploymentJob == run.deploymentJob)
    && (c.run.status.Deploying? ==> run.status.Deploying? || run.status.Submitting?)
    && (Quiet(c.run.status) ==>
          Quiet(run.status) || JobIdle(w, run.currentJob) || (c.thread.Moves? && w.workers[c.thread.worker].pc.Top?))
    && (Deployed(c.run.status) ==>
          c.run.deploymentJob == run.deploymentJob && (Deployed(run.status) || JobIdle(w, run.deploymentJob)))
    && (Closed(c.run.status) ==>
          && c.run.deploymentJob == run.deploymentJob && c.run.currentJob == run.currentJob
          && (Closed(run.status) || run.status.Prepared? || run.status.AwaitingAcceptance?
              || (JobIdle(w, run.deploymentJob) && JobIdle(w, run.currentJob))))
    && (c.run.currentJob != run.currentJob ==> Working(run.status) && c.run.status == run.status)
  }

  predicate ThreadMoves(w: World, c: Change)
    requires Fits(w, c)
  {
    && (c.thread.Spawn? ==> Quiet(w.runs[c.r].status))
    && (c.thread.Moves? ==>
          && var before := w.workers[c.thread.worker].pc;
          && before != Done
          && match c.thread.pc
             case Top => before.Observed? && c.run.currentJob == w.runs[c.r].currentJob
             case Answered => before.Top? && c.run.currentJob == w.runs[c.r].currentJob
             case Polling(_, job) => c.run.currentJob == Some(job)
             case Observed(_, job, _) =>
               && before.Polling? && before.job == job && JobIdle(w, Some(job))
               && c.run.currentJob == w.runs[c.r].currentJob
             case _ => true)
  }

  predicate JobMove(w: World, c: Change)
    requires Fits(w, c)
  {
    Ages(w, c) && Stores(w, c) && Advances(w, c) && ThreadMoves(w, c)
  }

  lemma DeployJobMove(w: World, a: Action)
    requires HeldSound(w) && Settle(w, a).Some? && (a.DeployBegin? || a.DeploySubmit? || a.DeployFinish?)
    ensures JobMove(w, Settle(w, a).value)
  {
  }

  lemma HealthJobMove(w: World, a: Action)
    requires Settle(w, a).Some? && (a.Observe? || a.AttestHealth?)
    ensures JobMove(w, Settle(w, a).value)
  {
  }

  lemma CollectJobMove(w: World, a: Action)
    requires Settle(w, a).Some? && (a.CollectBegin? || a.CollectEnd?)
    ensures JobMove(w, Settle(w, a).value)
  {
  }

  lemma ReconcileJobMove(w: World, a: Action)
    requires Order(w, a).Some? && (a.Reconcile? || a.Stop?)
    ensures JobMove(w, Order(w, a).value)
  {
  }

  lemma StartJobMove(w: World, a: Action)
    requires Order(w, a).Some? && (a.StartBootstrap? || a.StartConfiguration?)
    ensures JobMove(w, Order(w, a).value)
  {
  }

  lemma RequestJobMove(w: World, a: Action)
    requires Order(w, a).Some? && (a.LinkJob? || a.Accept? || a.ClosePrepared?)
    ensures JobMove(w, Order(w, a).value)
  {
  }

  lemma TopJobMove(w: World, a: Action)
    requires HeldSound(w) && Advance(w, a).Some? && a.WorkerTop?
    ensures JobMove(w, Advance(w, a).value)
  {
  }

  lemma SaveJobMove(w: World, a: Action)
    requires HeldSound(w) && Advance(w, a).Some? && a.WorkerSave?
    ensures JobMove(w, Advance(w, a).value)
  {
  }

  lemma LaterJobMove(w: World, a: Action)
    requires HeldSound(w) && Advance(w, a).Some? && !a.WorkerTop? && !a.WorkerSave?
    ensures JobMove(w, Advance(w, a).value)
  {
  }

  lemma SettleJobMove(w: World, a: Action)
    requires HeldSound(w) && Settle(w, a).Some?
    ensures JobMove(w, Settle(w, a).value)
  {
    if a.DeployBegin? || a.DeploySubmit? || a.DeployFinish? {
      DeployJobMove(w, a);
    } else if a.Observe? || a.AttestHealth? {
      HealthJobMove(w, a);
    } else {
      CollectJobMove(w, a);
    }
  }

  lemma OrderJobMove(w: World, a: Action)
    requires Order(w, a).Some?
    ensures JobMove(w, Order(w, a).value)
  {
    if a.Reconcile? || a.Stop? {
      ReconcileJobMove(w, a);
    } else if a.StartBootstrap? || a.StartConfiguration? {
      StartJobMove(w, a);
    } else {
      RequestJobMove(w, a);
    }
  }

  lemma DecideJobMove(w: World, a: Action)
    requires HeldSound(w) && Decide(w, a).Some?
    ensures JobMove(w, Decide(w, a).value)
  {
    if Settle(w, a).Some? {
      SettleJobMove(w, a);
    } else if Order(w, a).Some? {
      OrderJobMove(w, a);
    } else if a.WorkerTop? {
      TopJobMove(w, a);
    } else if a.WorkerSave? {
      SaveJobMove(w, a);
    } else {
      LaterJobMove(w, a);
    }
  }

  /******* Every change keeps the invariant *******/

  /** A finished or deleted job never becomes unfinished again. */
  lemma IdleStays(w: World, c: Change, id: Option<JobId>)
    requires Fits(w, c) && Ages(w, c) && Issued(w, id) && JobIdle(w, id)
    ensures JobIdle(Apply(w, c), id)
  {
  }

  lemma ChangeKeepsOtherRun(w: World, c: Change, r: nat)
    requires Fits(w, c) && JobMove(w, c) && JobsNamed(w) && r < |w.runs| && r != c.r
    ensures RunJobs(Apply(w, c), r)
  {
    var run, w' := w.runs[r], Apply(w, c);
    assert RunJobs(w, r);
    if JobIdle(w, run.deploymentJob) {
      IdleStays(w, c, run.deploymentJob);
    }
    if JobIdle(w, run.currentJob) {
      IdleStays(w, c, run.currentJob);
    }
    forall j | UnfinishedOf(w', j, r) && j !in w'.unsaved
      ensures Some(j) == run.deploymentJob || Some(j) == run.currentJob
    {
      assert UnfinishedOf(w, j, r);
    }
  }

  /** The thread that acts or the run's status says that the stored job is idle. */
  lemma CurrentIdle(w: World, c: Change)
    requires Fits(w, c) && JobMove(w, c) && JobsNamed(w) && HeldSound(w)
    ensures Quiet(c.run.status) || c.run.currentJob != w.runs[c.r].currentJob ==> JobIdle(w, w.runs[c.r].currentJob)
  {
    assert RunJobs(w, c.r);
    if c.thread.Moves? {
      assert ThreadJob(w, c.thread.worker);
    }
  }

  lemma ChangeKeepsOwnRun(w: World, c: Change)
    requires Fits(w, c) && JobMove(w, c) && JobsNamed(w) && HeldSound(w)
    ensures RunJobs(Apply(w, c), c.r)
  {
    var run, w' := w.runs[c.r], Apply(w, c);
    assert RunJobs(w, c.r);
    CurrentIdle(w, c);
    if JobIdle(w, run.deploymentJob) {
      IdleStays(w, c, run.deploymentJob);
    }
    if JobIdle(w, run.currentJob) {
      IdleStays(w, c, run.currentJob);
    }
    forall j | UnfinishedOf(w', j, c.r) && j !in w'.unsaved
      ensures Some(j) == c.run.deploymentJob || Some(j) == c.run.currentJob
    {
      assert UnfinishedOf(w, j, c.r);
    }
  }

  lemma ChangeKeepsThreadJob(w: World, c: Change, k: nat)
    requires Fits(w, c) && JobMove(w, c) && JobsNamed(w) && OneThread(w) && OneThread(Apply(w, c))
    ensures ThreadJob(Apply(w, c), k)
  {
    var w' := Apply(w, c);
    if k < |w'.workers| && w'.workers[k].run < |w'.runs| {
      var r := w'.workers[k].run;
      assert RunJobs(w, r);
      if k < |w.workers| {
        assert ThreadJob(w, k);
        if JobIdle(w, w.runs[r].currentJob) {
          IdleStays(w, c, w.runs[r].currentJob);
        }
        if c.thread.Moves? && k != c.thread.worker && r == c.r && w'.workers[k].pc != Done {
          assert Live(w, k, r) && Live(w, c.thread.worker, r);
        }
      } else {
        IdleStays(w, c, w.runs[r].currentJob);
      }
    }
  }

  lemma ChangeKeepsHeldOwned(w: World, c: Change)
    requires Fits(w, c) && JobMove(w, c) && JobsNamed(w) && HeldSound(w)
    ensures HeldOwned(Apply(w, c))
  {
  }

  lemma ChangeKeepsJobsNamed(w: World, a: Action)
    requires Owned(w) && JobsNamed(w) && Decide(w, a).Some?
    requires OneThread(w) && OneThread(Apply(w, Decide(w, a).value))
    ensures JobsNamed(Apply(w, Decide(w, a).value))
  {
    var c := Decide(w, a).value;
    DecideJobMove(w, a);
    forall r: nat | r < |w.runs| ensures RunJobs(Apply(w, c), r) {
      if r == c.r {
        ChangeKeepsOwnRun(w, c);
      } else {
        ChangeKeepsOtherRun(w, c, r);
      }
    }
    forall k: nat ensures ThreadJob(Apply(w, c), k) {
      ChangeKeepsThreadJob(w, c, k);
    }
    ChangeKeepsHeldOwned(w, c);
    ChangeKeepsWorkersBelong(w, c);
  }

  /** Ordinary jobs are nobody's; jobs move and are deleted only forward. */
  predicate Unowned(w: World, w': World) {
    && w.nextJob <= w'.nextJob && w'.unsaved == w.unsaved
    && (forall j :: j in w'.jobs ==>
          || (j in w.jobs && Aged(w.jobs[j], w'.jobs[j]))
          || (w.nextJob <= j < w'.nextJob && w'.jobs[j].owner == None))
  }

  lemma ElsewhereUnowned(w: World, a: Action)
    ensures Unowned(w, Elsewhere(w, a))
  {
  }

  /** Steps that leave threads and stored jobs alone, or drop the threads. */
  lemma QuietKeepsJobsNamed(w: World, w': World)
    requires JobsNamed(w) && Unowned(w, w') && |w.runs| <= |w'.runs|
    requires forall r :: 0 <= r < |w.runs| ==> w'.runs[r] == w.runs[r] || w'.runs[r] == RestartRun(w.runs[r])
    requires forall r :: |w.runs| <= r < |w'.runs| ==>
      w'.runs[r].status.Prepared? && w'.runs[r].deploymentJob.None? && w'.runs[r].currentJob.None?
    requires (w'.workers == w.workers && w'.held == w.held) || (w'.workers == [] && w'.held.Free?)
    ensures JobsNamed(w')
  {
    forall r: nat | r < |w'.runs| ensures RunJobs(w', r) {
      if r < |w.runs| {
        assert RunJobs(w, r);
        forall j | UnfinishedOf(w', j, r) ensures UnfinishedOf(w, j, r) {
        }
      }
    }
    forall k: nat ensures ThreadJob(w', k) {
      assert ThreadJob(w, k);
      assert k < |w.workers| ==> RunJobs(w, w.workers[k].run);
    }
  }

  lemma StepKeepsJobsNamed(w: World, a: Action)
    requires Owned(w) && JobsNamed(w) && OneThread(w) && OneThread(Step(w, a))
    ensures JobsNamed(Step(w, a))
  {
    if a.Crash? {
      QuietKeepsJobsNamed(w, DoCrash(w));
    } else if a.Prepare? {
      QuietKeepsJobsNamed(w, DoPrepare(w, a.id, a.body, a.undrifted));
    } else if Decide(w, a).Some? {
      ChangeKeepsJobsNamed(w, a);
    } else {
      ElsewhereKeepsRuns(w, a);
      ElsewhereUnowned(w, a);
      QuietKeepsJobsNamed(w, Elsewhere(w, a));
    }
  }

  lemma {:induction false} JobsStayNamed(history: seq<Action>)
    requires AlwaysOneThread(history)
    ensures JobsNamed(After(history))
  {
    if history != [] {
      var front, a := history[..|history| - 1], history[|history| - 1];
      OwnershipStaysSound(front);
      JobsStayNamed(front);
      StepKeepsJobsNamed(After(front), a);
    }
  }

  /******* Every history with at most one thread per run *******/

  /** Of two unfinished jobs of one run at least one is lost. */
  lemma TwoUnfinishedJobsMeanALostOne(history: seq<Action>, r: nat, i: JobId, j: JobId)
    requires AlwaysOneThread(history) && i != j
    requires UnfinishedOf(After(history), i, r) && UnfinishedOf(After(history), j, r)
    ensures Lost(After(history), i) || Lost(After(history), j)
  {
    OwnershipStaysSound(history);
    JobsStayNamed(history);
    OneIsLost(After(history), r, i, j);
  }

  lemma OneIsLost(w: World, r: nat, i: JobId, j: JobId)
    requires HeldSound(w) && JobsNamed(w) && i != j && UnfinishedOf(w, i, r) && UnfinishedOf(w, j, r)
    ensures Lost(w, i) || Lost(w, j)
  {
    assert RunJobs(w, r);
    if w.held.StepAnswered? {
      assert ThreadJob(w, w.held.worker);
    }
  }

  /** A run that was accepted or closed has released its hardware: no job of it is
      unfinished, unless that job is lost. */
  lemma ClosedRunsLeaveOnlyLostJobs(history: seq<Action>, r: nat, j: JobId)
    requires AlwaysOneThread(history) && r < |After(history).runs| && Closed(After(history).runs[r].status)
    requires UnfinishedOf(After(history), j, r)
    ensures Lost(After(history), j)
  {
    OwnershipStaysSound(history);
    JobsStayNamed(history);
    ClosedIsDone(After(history), r, j);
  }

  lemma ClosedIsDone(w: World, r: nat, j: JobId)
    requires HeldSound(w) && JobsNamed(w) && r < |w.runs| && Closed(w.runs[r].status) && UnfinishedOf(w, j, r)
    ensures Lost(w, j)
  {
    assert RunJobs(w, r);
  }

  /** Reconciliation looks at the two stored jobs of a run. They are idle exactly if
      every unfinished job of the run is lost: what the check cannot see is what was
      queued and never stored. */
  lemma ReconcileSeesAllButLostJobs(history: seq<Action>, r: nat)
    requires AlwaysOneThread(history) && After(history).held.Free? && r < |After(history).runs|
    ensures var w := After(history);
      JobIdle(w, w.runs[r].deploymentJob) && JobIdle(w, w.runs[r].currentJob)
      <==> (forall j :: UnfinishedOf(w, j, r) ==> Lost(w, j))
  {
    JobsStayNamed(history);
    IdleIffLost(After(history), r);
  }

  lemma IdleIffLost(w: World, r: nat)
    requires JobsNamed(w) && w.held.Free? && r < |w.runs|
    ensures JobIdle(w, w.runs[r].deploymentJob) && JobIdle(w, w.runs[r].currentJob)
      <==> (forall j :: UnfinishedOf(w, j, r) ==> Lost(w, j))
  {
    assert RunJobs(w, r);
    var run := w.runs[r];
    if !JobIdle(w, run.deploymentJob) {
      assert UnfinishedOf(w, run.deploymentJob.value, r) && !Lost(w, run.deploymentJob.value);
    } else if !JobIdle(w, run.currentJob) {
      assert UnfinishedOf(w, run.currentJob.value, r) && !Lost(w, run.currentJob.value);
    }
  }

  /******* How a job gets lost, and what follows *******/

  /** The action is a submission that is rejected although it queued a job. */
  ghost predicate RejectedAfterQueuing(w: World, a: Action) {
    || (a.DeploySubmit? && w.held.DeployIntended? && w.held.run < |w.runs| && !a.accepted && a.created)
    || (a.WorkerTop? && !a.accepted && a.created
        && OnWorkerTop(w, a.worker, a.restricted, a.verified, a.accepted, a.created).Some?
        && OnWorkerTop(w, a.worker, a.restricted, a.verified, a.accepted, a.created).value.emit != [])
  }

  /** The holder's job is queued and not stored; jobs to come are neither. */
  predicate HeldUnsaved(w: World) {
    && (HeldJob(w.held).Some? ==> HeldJob(w.held).value in w.unsaved)
    && (forall j :: j in w.unsaved ==> j < w.nextJob)
  }

  lemma SettleLoses(w: World, a: Action, j: JobId)
    requires HeldSound(w) && HeldUnsaved(w) && Settle(w, a).Some?
    ensures var w' := Apply(w, Settle(w, a).value);
      HeldUnsaved(w') && (Lost(w', j) <==> Lost(w, j) || (RejectedAfterQueuing(w, a) && j == w.nextJob))
  {
  }

  lemma OrderLoses(w: World, a: Action, j: JobId)
    requires HeldSound(w) && HeldUnsaved(w) && Order(w, a).Some?
    ensures var w' := Apply(w, Order(w, a).value);
      HeldUnsaved(w') && (Lost(w', j) <==> Lost(w, j)) && !RejectedAfterQueuing(w, a)
  {
  }

  lemma AdvanceLoses(w: World, a: Action, j: JobId)
    requires HeldSound(w) && HeldUnsaved(w) && Advance(w, a).Some?
    ensures var w' := Apply(w, Advance(w, a).value);
      HeldUnsaved(w') && (Lost(w', j) <==> Lost(w, j) || (RejectedAfterQueuing(w, a) && j == w.nextJob))
  {
  }

  lemma CrashLoses(w: World, j: JobId)
    requires HeldUnsaved(w)
    ensures HeldUnsaved(DoCrash(w)) && (Lost(DoCrash(w), j) <==> Lost(w, j) || HeldJob(w.held) == Some(j))
  {
  }

  lemma OthersLose(w: World, a: Action, j: JobId)
    requires HeldSound(w) && HeldUnsaved(w) && !a.Crash? && (a.Prepare? || Decide(w, a).None?)
    ensures HeldUnsaved(Step(w, a)) && (Lost(Step(w, a), j) <==> Lost(w, j)) && !RejectedAfterQueuing(w, a)
  {
    if !a.Prepare? {
      ElsewhereKeepsRuns(w, a);
      ElsewhereUnowned(w, a);
    }
  }

  lemma StepLoses(w: World, a: Action, j: JobId)
    requires HeldSound(w) && HeldUnsaved(w)
    ensures HeldUnsaved(Step(w, a))
    ensures Lost(Step(w, a), j) <==>
      Lost(w, j) || (a.Crash? && HeldJob(w.held) == Some(j)) || (RejectedAfterQueuing(w, a) && j == w.nextJob)
  {
    if a.Crash? {
      CrashLoses(w, j);
    } else if a.Prepare? || Decide(w, a).None? {
      OthersLose(w, a, j);
    } else if Settle(w, a).Some? {
      SettleLoses(w, a, j);
    } else if Order(w, a).Some? {
      OrderLoses(w, a, j);
    } else {
      AdvanceLoses(w, a, j);
    }
  }

  lemma {:induction false} HeldStaysUnsaved(history: seq<Action>)
    ensures HeldUnsaved(After(history))
  {
    if history != [] {
      var front, a := history[..|history| - 1], history[|history| - 1];
      OwnershipStaysSound(front);
      HeldStaysUnsaved(front);
      StepLoses(After(front), a, 0);
    }
  }

  /** Some action of the history lost job `j`: the process died between its submission
      and the save of its id, or its submission was rejected after it was queued. */
  ghost predicate WasLost(history: seq<Action>, j: JobId) {
    history != []
    && var front, a := history[..|history| - 1], history[|history| - 1];
    && var w := After(front);
    (WasLost(front, j) || (a.Crash? && HeldJob(w.held) == Some(j)) || (RejectedAfterQueuing(w, a) && j == w.nextJob))
  }

  /** In any history, with any number of threads, a job is lost if and only if the
      process died between its submission and the save, or its submission was rejected
      after it was queued. No later action finds it again. */
  lemma {:induction false} LostIff(history: seq<Action>, j: JobId)
    ensures Lost(After(history), j) <==> WasLost(history, j)
  {
    if history != [] {
      var front, a := history[..|history| - 1], history[|history| - 1];
      OwnershipStaysSound(front);
      HeldStaysUnsaved(front);
      LostIff(front, j);
      StepLoses(After(front), a, j);
    }
  }

  /** The run that was configuring when the process died between a submission and the
      save of its job, and may be resumed. */
  ghost predicate DiesBeforeSave(w: World, k: nat, r: nat, j: JobId) {
    && w.held.StepAnswered? && w.held.worker == k && w.held.job == Some(j)
    && k < |w.workers| && w.workers[k].run == r < |w.runs| && w.runs[r].status.Configuring?
    && |w.runs[r].steps| < |w.runs[r].Intent()|
    && UnfinishedOf(w, j, r) && j in w.unsaved && j < w.nextJob
    && JobIdle(w, w.runs[r].currentJob) && Resumable(w, w.runs[r])
    && BootstrapRecorded(w, w.runs[r], BootstrapCount(w.runs[r].Intent()))
  }

  /** The run waits for its next configuration; job `j` is lost and unfinished. */
  ghost predicate Haunted(w: World, r: nat, status: Status, j: JobId) {
    && w.held.Free? && w.workers == [] && r < |w.runs| && w.runs[r].status == status
    && |w.runs[r].steps| < |w.runs[r].Intent()|
    && UnfinishedOf(w, j, r) && Lost(w, j) && j < w.nextJob
    && JobIdle(w, w.runs[r].currentJob) && Resumable(w, w.runs[r])
    && BootstrapRecorded(w, w.runs[r], BootstrapCount(w.runs[r].Intent()))
  }

  lemma CrashHaunts(w: World, k: nat, r: nat, j: JobId)
    requires DiesBeforeSave(w, k, r, j)
    ensures Haunted(DoCrash(w), r, NeedsReconciliation, j)
  {
    assert DoCrash(w).runs[r] == RestartRun(w.runs[r]);
  }

  lemma HauntedResumes(w: World, r: nat, j: JobId)
    requires Haunted(w, r, NeedsReconciliation, j)
    ensures OnReconcile(w, r, true, true).Some?
    ensures Haunted(Apply(w, OnReconcile(w, r, true, true).value), r, AwaitingHealth, j)
  {
  }

  lemma HauntedVerifies(w: World, r: nat, j: JobId)
    requires Haunted(w, r, AwaitingHealth, j)
    ensures OnAttestHealth(w, r, true).Some?
    ensures var w' := Apply(w, OnAttestHealth(w, r, true).value);
      Haunted(w', r, Ready, j) && w'.runs[r].evidence == Some(Evidence(w'.now, w'.runs[r].deploymentJob))
  {
    assert HealthCheckable(w, Refresh(w, w.runs[r]));
  }

  lemma HauntedSubmits(w: World, r: nat, j: JobId)
    requires Haunted(w, r, Ready, j) && w.runs[r].evidence == Some(Evidence(w.now, w.runs[r].deploymentJob))
    ensures OnStartConfiguration(w, r, true, {}).Some?
    ensures var w' := Apply(w, OnStartConfiguration(w, r, true, {}).value);
      OnWorkerTop(w', 0, false, true, true, true).Some? &&
      var w'' := Apply(w', OnWorkerTop(w', 0, false, true, true, true).value);
      UnfinishedOf(w'', j, r) && Lost(w'', j) && UnfinishedOf(w'', w.nextJob, r) && !Lost(w'', w.nextJob)
  {
    var w' := Apply(w, OnStartConfiguration(w, r, true, {}).value);
    assert w'.workers == [Worker(r, false, |w.trace|, Top)] && w'.runs[r].status.Configuring?;
  }

  /** So the crash between a submission and its save does let two jobs of one run be
      unfinished at once: after it the run is resumed, verified, started and submits
      the same step again, all accepted, while the first job may still be running. */
  lemma CrashBeforeSaveLeavesTwoJobs(w: World, k: nat, r: nat, j: JobId)
    requires DiesBeforeSave(w, k, r, j)
    ensures OnReconcile(DoCrash(w), r, true, true).Some?
    ensures var w1 := Apply(DoCrash(w), OnReconcile(DoCrash(w), r, true, true).value);
      OnAttestHealth(w1, r, true).Some? &&
      var w2 := Apply(w1, OnAttestHealth(w1, r, true).value);
      OnStartConfiguration(w2, r, true, {}).Some? &&
      var w3 := Apply(w2, OnStartConfiguration(w2, r, true, {}).value);
      OnWorkerTop(w3, 0, false, true, true, true).Some? &&
      var w4 := Apply(w3, OnWorkerTop(w3, 0, false, true, true, true).value);
      UnfinishedOf(w4, j, r) && UnfinishedOf(w4, w.nextJob, r) && j != w.nextJob
  {
    CrashHaunts(w, k, r, j);
    HauntedResumes(DoCrash(w), r, j);
    var w1 := Apply(DoCrash(w), OnReconcile(DoCrash(w), r, true, true).value);
    HauntedVerifies(w1, r, j);
    HauntedSubmits(Apply(w1, OnAttestHealth(w1, r, true).value), r, j);
  }
}
