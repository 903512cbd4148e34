/**
 Job references and health evidence, over every history and for any number of
 live threads: which job a record stands for, and when evidence must be present.
 */
module RecoveryEvidence {
  import opened Prelude
  import opened RecoveryIntent
  import opened RecoverySteps
  import opened RecoveryOwnership
  import opened RecoverySubmissions

  /******* Jobs *******/

  /** What a run needs a job for: its deployment, or a step of its snapshot. */
  datatype Task = DeployTask(content: DeployIntent) | ConfigureTask(step: StepIntent)

  /** The job is of the right workflow and carries exactly the captured content;
      a step is no dry run. */
  predicate Does(job: Job, task: Task) {
    match task
    case DeployTask(content) => job.workflow == FoundationDeploy && job.payload == Payload.Deploy(content)
    case ConfigureTask(step) =>
      && job.workflow == step.workflow
      && job.payload.Configure? && job.payload.config == step.config && !job.payload.dryRun
  }

  /** `job` is a job the service was given for `task`; if it succeeded it did just that. */
  ghost predicate Ran(w: World, job: JobId, task: Task) {
    && job < w.nextJob
    && (job in w.jobs ==> Does(w.jobs[job], task))
    && (job in w.succeeded ==> Does(w.succeeded[job], task))
  }

  ghost predicate RanOk(w: World, job: JobId, task: Task) {
    Ran(w, job, task) && job in w.succeeded
  }

  predicate SameWork(a: Job, b: Job) {
    a.workflow == b.workflow && a.payload == b.payload && a.created == b.created && a.owner == b.owner
  }

  ghost predicate JobsSound(w: World) {
    && (forall j :: j in w.jobs ==> j < w.nextJob && (w.jobs[j].status == Success ==> j in w.succeeded))
    && (forall j :: j in w.succeeded ==> j < w.nextJob && (j in w.jobs ==> SameWork(w.succeeded[j], w.jobs[j])))
  }

  /** From `w` to `w'` the jobs known in `w` keep their work and their success. */
  ghost predicate JobsEvolve(w: World, w': World) {
    && w.nextJob <= w'.nextJob
    && (forall j :: j in w.succeeded ==> j in w'.succeeded)
    && (forall j, task :: Ran(w, j, task) ==> Ran(w', j, task))
  }

  /** A change leaves the jobs alone, adds one fresh job, or changes statuses to
      something other than success. */
  ghost predicate MildOnJobs(w: World, c: Change) {
    || (c.jobs == w.jobs && c.nextJob == w.nextJob)
    || (c.nextJob == w.nextJob + 1 && c.jobs.Keys == w.jobs.Keys + {w.nextJob} && c.jobs[w.nextJob].status == Queued
        && forall j :: j in w.jobs && j != w.nextJob ==> c.jobs[j] == w.jobs[j])
    || (c.nextJob == w.nextJob && c.jobs.Keys == w.jobs.Keys
        && forall j :: j in w.jobs ==> SameWork(c.jobs[j], w.jobs[j])
                                       && (c.jobs[j].status == Success ==> w.jobs[j].status == Success))
  }

  lemma SettleJobs(w: World, a: Action)
    requires Settle(w, a).Some?
    ensures MildOnJobs(w, Settle(w, a).value)
  {
  }

  lemma OrderJobs(w: World, a: Action)
    requires Order(w, a).Some?
    ensures MildOnJobs(w, Order(w, a).value)
  {
  }

  lemma AdvanceJobs(w: World, a: Action)
    requires Advance(w, a).Some?
    ensures MildOnJobs(w, Advance(w, a).value)
  {
  }

  lemma MildEvolvesJobs(w: World, c: Change)
    requires Fits(w, c) && JobsSound(w) && MildOnJobs(w, c)
    ensures JobsSound(Apply(w, c)) && JobsEvolve(w, Apply(w, c))
  {
  }

  lemma ChangeEvolvesJobs(w: World, a: Action)
    requires JobsSound(w) && Decide(w, a).Some?
    ensures JobsSound(Apply(w, Decide(w, a).value)) && JobsEvolve(w, Apply(w, Decide(w, a).value))
  {
    if Settle(w, a).Some? {
      SettleJobs(w, a);
    } else if Order(w, a).Some? {
      OrderJobs(w, a);
    } else {
      AdvanceJobs(w, a);
    }
    MildEvolvesJobs(w, Decide(w, a).value);
  }

  lemma MoveEvolvesJobs(w: World, j: JobId, status: JobStatus)
    requires JobsSound(w)
    ensures JobsSound(DoJobMoves(w, j, status)) && JobsEvolve(w, DoJobMoves(w, j, status))
  {
  }

  lemma OrdinaryEvolvesJobs(w: World, workflow: Workflow, payload: Payload)
    requires JobsSound(w)
    ensures var w' := DoOrdinaryJob(w, workflow, payload); JobsSound(w') && JobsEvolve(w, w')
  {
  }

  lemma OtherEvolvesJobs(w: World, a: Action)
    requires JobsSound(w) && !a.JobMoves? && !a.OrdinaryJob?
    ensures JobsSound(Elsewhere(w, a)) && JobsEvolve(w, Elsewhere(w, a))
  {
  }

  lemma ElsewhereEvolvesJobs(w: World, a: Action)
    requires JobsSound(w)
    ensures JobsSound(Elsewhere(w, a)) && JobsEvolve(w, Elsewhere(w, a))
  {
    if a.JobMoves? {
      MoveEvolvesJobs(w, a.job, a.status);
    } else if a.OrdinaryJob? {
      OrdinaryEvolvesJobs(w, a.workflow, a.payload);
    } else {
      OtherEvolvesJobs(w, a);
    }
  }

  /******* References to jobs *******/

  /** The record names a step of the snapshot, by workflow and digest, and a job that
      succeeded with exactly that step's configuration. */
  ghost predicate RecordRefers(w: World, run: Run, record: Recorded) {
    && record.index < |run.Intent()|
    && var step := run.Intent()[record.index];
    && record.workflow == step.workflow && record.sha == step.sha
    && RanOk(w, record.job, ConfigureTask(step))
  }

  /** The deployment job of a run is a deployment of the run's own content, and every
      record of the run stands for a successful job of the step it names. */
  ghost predicate RunRefers(w: World, run: Run) {
    && (run.deploymentJob.Some? ==> Ran(w, run.deploymentJob.value, DeployTask(run.snapshot.body.content)))
    && (run.status.Accepted? ==> run.deploymentJob.Some? && run.deploymentJob.value in w.succeeded)
    && forall k :: 0 <= k < |run.steps| ==> RecordRefers(w, run, run.steps[k])
  }

  ghost predicate WorkerRefers(w: World, k: nat)
    requires k < |w.workers|
  {
    match w.workers[k].pc
    case Polling(index, job) =>
      && w.workers[k].run < |w.runs| && index < |w.runs[w.workers[k].run].Intent()|
      && Ran(w, job, ConfigureTask(w.runs[w.workers[k].run].Intent()[index]))
    case Observed(index, job, success) =>
      && w.workers[k].run < |w.runs| && index < |w.runs[w.workers[k].run].Intent()|
      && Ran(w, job, ConfigureTask(w.runs[w.workers[k].run].Intent()[index]))
      && (success ==> job in w.succeeded)
    case _ => true
  }

  ghost predicate HeldRefers(w: World) {
    match w.held
    case DeployAnswered(r, Some(job), _) => r < |w.runs| && Ran(w, job, DeployTask(w.runs[r].snapshot.body.content))
    case StepAnswered(k, index, Some(job)) =>
      && k < |w.workers| && w.workers[k].run < |w.runs| && index < |w.runs[w.workers[k].run].Intent()|
      && Ran(w, job, ConfigureTask(w.runs[w.workers[k].run].Intent()[index]))
    case _ => true
  }

  ghost predicate Refers(w: World) {
    && JobsSound(w)
    && (forall r :: 0 <= r < |w.runs| ==> RunRefers(w, w.runs[r]))
    && (forall k :: 0 <= k < |w.workers| ==> WorkerRefers(w, k))
    && HeldRefers(w)
  }

  /** References survive any evolution of the jobs that leaves them alone. */
  lemma RunRefersStable(w: World, w': World, run: Run)
    requires JobsEvolve(w, w') && RunRefers(w, run)
    ensures RunRefers(w', run)
  {
  }

  lemma DeployRefers(w: World, a: Action)
    requires HeldSound(w) && Refers(w) && Settle(w, a).Some? && (a.DeployBegin? || a.DeploySubmit? || a.DeployFinish?)
    requires JobsEvolve(w, Apply(w, Settle(w, a).value)) && JobsSound(Apply(w, Settle(w, a).value))
    ensures var w' := Apply(w, Settle(w, a).value);
      RunRefers(w', Settle(w, a).value.run) && HeldRefers(w')
  {
    RunRefersStable(w, Apply(w, Settle(w, a).value), w.runs[Settle(w, a).value.r]);
  }

  /** A change that leaves the jobs named by its run and by the holder alone. */
  predicate SameReferences(w: World, c: Change)
    requires c.r < |w.runs|
  {
    && c.run.snapshot == w.runs[c.r].snapshot && c.run.steps == w.runs[c.r].steps
    && c.run.deploymentJob == w.runs[c.r].deploymentJob
    && (c.run.status.Accepted? ==> w.runs[c.r].status.Accepted?)
    && c.held == w.held && !c.thread.Moves?
  }

  lemma SameReferencesRefer(w: World, c: Change)
    requires Fits(w, c) && Refers(w) && SameReferences(w, c) && JobsEvolve(w, Apply(w, c))
    ensures RunRefers(Apply(w, c), c.run) && HeldRefers(Apply(w, c))
  {
    RunRefersStable(w, Apply(w, c), w.runs[c.r]);
  }

  lemma HealthSameReferences(w: World, a: Action)
    requires Settle(w, a).Some? && !a.DeployBegin? && !a.DeploySubmit? && !a.DeployFinish?
    ensures SameReferences(w, Settle(w, a).value)
  {
  }

  lemma HealthRefers(w: World, a: Action)
    requires Refers(w) && Settle(w, a).Some? && !a.DeployBegin? && !a.DeploySubmit? && !a.DeployFinish?
    requires JobsEvolve(w, Apply(w, Settle(w, a).value))
    ensures var w' := Apply(w, Settle(w, a).value);
      RunRefers(w', Settle(w, a).value.run) && HeldRefers(w')
  {
    HealthSameReferences(w, a);
    SameReferencesRefer(w, Settle(w, a).value);
  }

  lemma SettleRefers(w: World, a: Action)
    requires HeldSound(w) && Refers(w) && Settle(w, a).Some?
    requires JobsEvolve(w, Apply(w, Settle(w, a).value)) && JobsSound(Apply(w, Settle(w, a).value))
    ensures var w' := Apply(w, Settle(w, a).value);
      RunRefers(w', Settle(w, a).value.run) && HeldRefers(w')
  {
    if a.DeployBegin? || a.DeploySubmit? || a.DeployFinish? {
      DeployRefers(w, a);
    } else {
      HealthRefers(w, a);
    }
  }

  lemma OrderSameReferences(w: World, a: Action)
    requires Order(w, a).Some? && !a.LinkJob? && !a.Accept?
    ensures SameReferences(w, Order(w, a).value)
  {
  }

  lemma LinkRefers(w: World, r: nat, j: JobId, restricted: bool)
    requires Refers(w) && OnLinkJob(w, r, j, restricted).Some?
    ensures var c := OnLinkJob(w, r, j, restricted).value;
      Fits(w, c) && RunRefers(Apply(w, c), c.run) && HeldRefers(Apply(w, c))
  {
    var c := OnLinkJob(w, r, j, restricted).value;
    var run := w.runs[r];
    assert RunRefers(w, run);
    assert RecordRefers(w, run, c.run.steps[|run.steps|]);
  }

  lemma AcceptRefers(w: World, r: nat, confirmed: bool)
    requires Refers(w) && OnAccept(w, r, confirmed).Some?
    ensures var c := OnAccept(w, r, confirmed).value;
      Fits(w, c) && RunRefers(Apply(w, c), c.run) && HeldRefers(Apply(w, c))
  {
    assert RunRefers(w, w.runs[r]);
  }

  lemma OrderRefers(w: World, a: Action)
    requires Refers(w) && Order(w, a).Some?
    requires JobsEvolve(w, Apply(w, Order(w, a).value))
    ensures var w' := Apply(w, Order(w, a).value);
      RunRefers(w', Order(w, a).value.run) && HeldRefers(w')
  {
    if a.LinkJob? {
      LinkRefers(w, a.run, a.job, a.restricted);
    } else if a.Accept? {
      AcceptRefers(w, a.run, a.confirmed);
    } else {
      OrderSameReferences(w, a);
      SameReferencesRefer(w, Order(w, a).value);
    }
  }

  lemma AdvanceRunRefers(w: World, c: Change)
    requires Fits(w, c) && Orderly(w, c) && Refers(w) && JobsEvolve(w, Apply(w, c))
    requires c.run.deploymentJob == w.runs[c.r].deploymentJob
    requires Waited(w, c) || Finished(w, c) || Submitted(w, c) || RecordedStep(w, c)
    ensures RunRefers(Apply(w, c), c.run)
  {
    RunRefersStable(w, Apply(w, c), w.runs[c.r]);
    if RecordedStep(w, c) {
      assert WorkerRefers(w, c.thread.worker);
    }
  }

  /** What a thread's step refers to afterwards. */
  ghost predicate AdvancedRefers(w: World, c: Change)
    requires Fits(w, c) && c.thread.Moves?
  {
    && HeldRefers(Apply(w, c)) && WorkerRefers(Apply(w, c), c.thread.worker)
    && c.run.deploymentJob == w.runs[c.r].deploymentJob
  }

  lemma TopRefers(w: World, a: Action)
    requires HeldSound(w) && Refers(w) && Advance(w, a).Some? && a.WorkerTop?
    requires JobsEvolve(w, Apply(w, Advance(w, a).value)) && JobsSound(Apply(w, Advance(w, a).value))
    ensures AdvancedRefers(w, Advance(w, a).value)
  {
    assert WorkerRefers(w, Advance(w, a).value.thread.worker);
  }

  lemma LaterRefers(w: World, a: Action)
    requires HeldSound(w) && Refers(w) && Advance(w, a).Some? && !a.WorkerTop?
    requires JobsEvolve(w, Apply(w, Advance(w, a).value)) && JobsSound(Apply(w, Advance(w, a).value))
    ensures AdvancedRefers(w, Advance(w, a).value)
  {
    assert WorkerRefers(w, Advance(w, a).value.thread.worker);
  }

  lemma AdvanceRefers(w: World, a: Action)
    requires HeldSound(w) && Refers(w) && Advance(w, a).Some?
    requires JobsEvolve(w, Apply(w, Advance(w, a).value)) && JobsSound(Apply(w, Advance(w, a).value))
    ensures AdvancedRefers(w, Advance(w, a).value)
  {
    if a.WorkerTop? {
      TopRefers(w, a);
    } else {
      LaterRefers(w, a);
    }
  }

  lemma ChangeKeepsRefers(w: World, a: Action)
    requires HeldSound(w) && Refers(w) && Decide(w, a).Some?
    ensures Refers(Apply(w, Decide(w, a).value))
  {
    var c := Decide(w, a).value;
    var w' := Apply(w, c);
    ChangeEvolvesJobs(w, a);
    DecideIsOrderly(w, a);
    if Settle(w, a).Some? {
      SettleRefers(w, a);
    } else if Order(w, a).Some? {
      OrderRefers(w, a);
    } else {
      AdvanceRefers(w, a);
      AdvanceShape(w, a);
      AdvanceRunRefers(w, c);
    }
    OthersRefer(w, c);
  }

  lemma OthersRefer(w: World, c: Change)
    requires Fits(w, c) && Orderly(w, c) && Refers(w) && JobsEvolve(w, Apply(w, c))
    ensures forall r :: 0 <= r < |w.runs| && r != c.r ==> RunRefers(Apply(w, c), Apply(w, c).runs[r])
    ensures forall k :: 0 <= k < |Apply(w, c).workers| && !(c.thread.Moves? && k == c.thread.worker) ==> WorkerRefers(Apply(w, c), k)
  {
    forall r | 0 <= r < |w.runs| && r != c.r ensures RunRefers(Apply(w, c), Apply(w, c).runs[r]) {
      RunRefersStable(w, Apply(w, c), w.runs[r]);
    }
    forall k | 0 <= k < |w.workers| && !(c.thread.Moves? && k == c.thread.worker) ensures WorkerRefers(Apply(w, c), k) {
      assert WorkerRefers(w, k);
      assert Apply(w, c).workers[k] == w.workers[k];
    }
  }

  lemma PrepareKeepsRefers(w: World, id: nat, body: Body, undrifted: bool)
    requires Refers(w)
    ensures Refers(DoPrepare(w, id, body, undrifted))
  {
    var w' := DoPrepare(w, id, body, undrifted);
    assert JobsEvolve(w, w');
    forall k | 0 <= k < |w.workers| ensures WorkerRefers(w', k) {
      assert WorkerRefers(w, k);
    }
  }

  lemma CrashKeepsRefers(w: World)
    requires Refers(w)
    ensures Refers(DoCrash(w))
  {
    forall r | 0 <= r < |w.runs| ensures RunRefers(DoCrash(w), DoCrash(w).runs[r]) {
      assert RunRefers(w, w.runs[r]);
    }
  }

  lemma ElsewhereKeepsRefers(w: World, a: Action)
    requires Refers(w)
    ensures Refers(Elsewhere(w, a))
  {
    var w' := Elsewhere(w, a);
    ElsewhereKeepsRuns(w, a);
    ElsewhereEvolvesJobs(w, a);
    forall r | 0 <= r < |w.runs| ensures RunRefers(w', w'.runs[r]) {
      RunRefersStable(w, w', w.runs[r]);
    }
    forall k | 0 <= k < |w.workers| ensures WorkerRefers(w', k) {
      assert WorkerRefers(w, k);
    }
  }

  lemma StepKeepsRefers(w: World, a: Action)
    requires HeldSound(w) && Refers(w)
    ensures Refers(Step(w, a))
  {
    if a.Crash? {
      CrashKeepsRefers(w);
    } else if a.Prepare? {
      PrepareKeepsRefers(w, a.id, a.body, a.undrifted);
    } else if Decide(w, a).Some? {
      ChangeKeepsRefers(w, a);
    } else {
      ElsewhereKeepsRefers(w, a);
    }
  }

  /******* Health evidence *******/

  /** Statuses past the health gate, and statuses before it. */
  ghost predicate PastGate(s: Status) {
    s.Ready? || s.Configuring? || s.AwaitingAcceptance?
  }

  ghost predicate BeforeGate(s: Status) {
    s.Prepared? || s.Submitting? || s.Deploying? || s.AwaitingBootstrap? || s.Bootstrapping? || s.AwaitingHealth?
  }

  /** Evidence for this deployment is present past the gate and absent before it. */
  ghost predicate Coherent(run: Run) {
    && (PastGate(run.status) ==>
          run.evidence.Some? && run.deploymentJob.Some? && run.evidence.value.deployment == run.deploymentJob)
    && (BeforeGate(run.status) ==> run.evidence.None?)
    && (BeforeGate(run.status) && !run.status.Prepared? && !run.status.Submitting? ==> run.deploymentJob.Some?)
  }

  /** What an event means for the evidence of run `r`: recorded, or withdrawn by a
      new collection or a reconciliation. */
  function Reviewed(e: Event, r: nat, before: Option<nat>): Option<nat> {
    if e.run != r then before
    else
      match e
      case EvidenceRecorded(_, at, _) => Some(at)
      case CollectionStarted(_, _) => None
      case Reconciled(_, _) => None
      case _ => before
  }

  /** When the evidence of run `r` that nothing withdrew was recorded. */
  function StandingEvidence(trace: seq<Event>, r: nat): Option<nat> {
    if trace == [] then None
    else Reviewed(trace[|trace| - 1], r, StandingEvidence(trace[..|trace| - 1], r))
  }

  lemma StandingAppend(trace: seq<Event>, emit: seq<Event>, r: nat)
    requires |emit| <= 1
    ensures StandingEvidence(trace + emit, r) ==
      if emit == [] then StandingEvidence(trace, r) else Reviewed(emit[0], r, StandingEvidence(trace, r))
  {
    if emit == [] {
      assert trace + emit == trace;
    } else {
      assert (trace + emit)[..|trace|] == trace;
    }
  }

  /** The evidence a stored run shows; a closed run keeps its last one for the record. */
  function Shown(run: Run): Option<nat> {
    if run.status.ClosedReconciled? || run.evidence.None? then None else Some(run.evidence.value.at)
  }

  /** How a change may move its run across the gate. */
  ghost predicate GateMove(w: World, c: Change)
    requires c.r < |w.runs|
  {
    && (Coherent(w.runs[c.r]) ==> Coherent(c.run))
    && |c.emit| <= 1
    && (c.emit != [] ==> c.emit[0].run == c.r)
    && (Coherent(w.runs[c.r]) ==>
          Shown(c.run) == if c.emit == [] then Shown(w.runs[c.r]) else Reviewed(c.emit[0], c.r, Shown(w.runs[c.r])))
    && (c.run.evidence.Some? ==> c.run.evidence == w.runs[c.r].evidence || c.run.evidence.value.at == w.now)
  }

  lemma DeployGateMove(w: World, a: Action)
    requires HeldSound(w) && Settle(w, a).Some? && (a.DeployBegin? || a.DeploySubmit? || a.DeployFinish?)
    ensures GateMove(w, Settle(w, a).value)
  {
  }

  lemma HealthGateMove(w: World, a: Action)
    requires Settle(w, a).Some? && !a.DeployBegin? && !a.DeploySubmit? && !a.DeployFinish?
    ensures GateMove(w, Settle(w, a).value)
  {
  }

  lemma SettleGateMove(w: World, a: Action)
    requires HeldSound(w) && Settle(w, a).Some?
    ensures GateMove(w, Settle(w, a).value)
  {
    if a.DeployBegin? || a.DeploySubmit? || a.DeployFinish? {
      DeployGateMove(w, a);
    } else {
      HealthGateMove(w, a);
    }
  }

  lemma EndingGateMove(w: World, a: Action)
    requires HeldSound(w) && Order(w, a).Some? && (a.Reconcile? || a.ClosePrepared? || a.Stop? || a.Accept?)
    ensures GateMove(w, Order(w, a).value)
  {
  }

  lemma StartGateMove(w: World, a: Action)
    requires HeldSound(w) && Order(w, a).Some? && !a.Reconcile? && !a.ClosePrepared? && !a.Stop? && !a.Accept?
    ensures GateMove(w, Order(w, a).value)
  {
  }

  lemma OrderGateMove(w: World, a: Action)
    requires HeldSound(w) && Order(w, a).Some?
    ensures GateMove(w, Order(w, a).value)
  {
    if a.Reconcile? || a.ClosePrepared? || a.Stop? || a.Accept? {
      EndingGateMove(w, a);
    } else {
      StartGateMove(w, a);
    }
  }

  lemma AdvanceGateMove(w: World, a: Action)
    requires HeldSound(w) && Advance(w, a).Some?
    ensures GateMove(w, Advance(w, a).value)
  {
  }

  lemma DecideGateMove(w: World, a: Action)
    requires HeldSound(w) && Decide(w, a).Some?
    ensures GateMove(w, Decide(w, a).value)
  {
    if Settle(w, a).Some? {
      SettleGateMove(w, a);
    } else if Order(w, a).Some? {
      OrderGateMove(w, a);
    } else {
      AdvanceGateMove(w, a);
    }
  }

  /** The stored evidence of every run is the one that stands in the trace. */
  ghost predicate Gated(w: World) {
    && (forall r :: 0 <= r < |w.runs| ==>
          Coherent(w.runs[r]) && (w.runs[r].evidence.Some? ==> w.runs[r].evidence.value.at <= w.now))
    && forall r: nat :: StandingEvidence(w.trace, r) == if r < |w.runs| then Shown(w.runs[r]) else None
  }

  lemma ChangeKeepsGated(w: World, a: Action)
    requires HeldSound(w) && Gated(w) && Decide(w, a).Some?
    ensures Gated(Apply(w, Decide(w, a).value))
  {
    DecideGateMove(w, a);
    GateMoveKeepsGated(w, Decide(w, a).value);
  }

  lemma GateMoveKeepsGated(w: World, c: Change)
    requires Fits(w, c) && GateMove(w, c) && Gated(w)
    ensures Gated(Apply(w, c))
  {
    var w' := Apply(w, c);
    forall r: nat
      ensures StandingEvidence(w'.trace, r) == if r < |w'.runs| then Shown(w'.runs[r]) else None
    {
      StandingAppend(w.trace, c.emit, r);
    }
  }

  lemma CrashKeepsGated(w: World)
    requires Gated(w)
    ensures Gated(DoCrash(w))
  {
  }

  lemma PrepareKeepsGated(w: World, id: nat, body: Body, undrifted: bool)
    requires Gated(w)
    ensures Gated(DoPrepare(w, id, body, undrifted))
  {
  }

  lemma StepKeepsGated(w: World, a: Action)
    requires HeldSound(w) && Gated(w)
    ensures Gated(Step(w, a))
  {
    if a.Crash? {
      CrashKeepsGated(w);
    } else if a.Prepare? {
      PrepareKeepsGated(w, a.id, a.body, a.undrifted);
    } else if Decide(w, a).Some? {
      ChangeKeepsGated(w, a);
    } else {
      ElsewhereKeepsRuns(w, a);
    }
  }

  ghost predicate EvidenceSound(w: World) {
    Owned(w) && Refers(w) && Gated(w)
  }

  lemma {:induction false} EvidenceStaysSound(history: seq<Action>)
    ensures EvidenceSound(After(history))
  {
    if history != [] {
      var front, a := history[..|history| - 1], history[|history| - 1];
      EvidenceStaysSound(front);
      StepKeepsOwned(After(front), a);
      StepKeepsRefers(After(front), a);
      StepKeepsGated(After(front), a);
    }
  }

  /** In every reachable state a run past the health gate holds evidence for its own
      deployment; a run before the gate holds none; stored evidence is exactly what
      was recorded last and not withdrawn since; and every record stands for a job
      that succeeded with the configuration of the step it names. */
  lemma EvidenceMatchesStatus(history: seq<Action>, r: nat)
    requires r < |After(history).runs|
    ensures var w, run := After(history), After(history).runs[r];
      && Coherent(run)
      && StandingEvidence(w.trace, r) == Shown(run)
      && (run.evidence.Some? ==> run.evidence.value.at <= w.now)
      && RunRefers(w, run)
  {
    EvidenceStaysSound(history);
  }
}
