/**
 The recovery service as a transition system. A `World` holds the stored
 document, the job manager it delegates to, the live threads of the process and
 a trace of what was submitted, started and recorded. `Step` executes one action; one that
 the service refuses leaves the world unchanged. Every section the service runs
 under its lock is one action, except where it writes or submits half way: there
 the lock stays held between two actions, so that a crash can fall in between.
 */
module RecoverySteps {
  import opened Prelude
  import opened RecoveryIntent

  /******* Documents *******/

  datatype ClusterIntent = ClusterIntent(name: string, vip: string, formation: bool, serials: seq<string>)

  /** A parsed Foundation deployment file. */
  datatype DeployIntent = DeployIntent(endpoint: string, clusters: seq<ClusterIntent>)

  function Serials(content: DeployIntent): set<string> {
    set c, s | c in content.clusters && s in c.serials :: s
  }

  /** The captured part of a profile revision; the review fields stay outside. */
  datatype Body = Body(content: DeployIntent, endpoint: string, pipeline: nat, steps: seq<StepIntent>,
                       name: string, vip: string, targets: set<string>, createdAt: nat)

  datatype Revision = Revision(body: Body, number: nat, reviewed: bool)

  datatype Profile = Profile(datacenter: nat, revisions: seq<Revision>, archived: bool)

  datatype Datacenter = Datacenter(endpoint: string, reviewed: bool)

  datatype Status =
    | Prepared | Submitting | Deploying | AwaitingHealth | Ready | AwaitingBootstrap | Bootstrapping
    | Configuring | AwaitingAcceptance | NeedsReconciliation | Stopping | Accepted | ClosedReconciled

  /** The statuses of the constant `ACTIVE`: neither prepared nor closed. */
  predicate Active(s: Status) {
    !s.Prepared? && !Closed(s)
  }

  /** A run that no longer keeps its profile from changing. */
  predicate Closed(s: Status) {
    s.Accepted? || s.ClosedReconciled?
  }

  type JobId = nat

  datatype JobStatus = Queued | Running | Cancelling | Success | Failed | Cancelled | Interrupted

  const TERMINAL_JOBS := {Success, Failed, Cancelled, Interrupted}

  datatype Payload = NoPayload | Deploy(content: DeployIntent) | Configure(config: PostConfig, approval: Option<nat>, dryRun: bool)

  /** `owner` is the run that submitted the job, if one did. */
  datatype Job = Job(workflow: Workflow, status: JobStatus, created: nat, payload: Payload, owner: Option<nat>)

  datatype Recorded = Recorded(index: nat, workflow: Workflow, job: JobId, sha: Digest)

  datatype Evidence = Evidence(at: nat, deployment: Option<JobId>)

  datatype Run = Run(
    profile: nat, datacenter: nat, snapshot: Revision, status: Status, steps: seq<Recorded>,
    deploymentJob: Option<JobId>, currentJob: Option<JobId>, evidence: Option<Evidence>,
    collection: Option<nat>, resumeApproved: bool, approvals: map<nat, nat>)
  {
    function Intent(): seq<StepIntent> { snapshot.body.steps }
  }

  /******* The process *******/

  /** Where a `_configure` thread is: about to take the lock; waiting for a job;
      holding the job's final state; holding an exception; gone. */
  datatype Pc =
    | Top
    | Answered
    | Polling(index: nat, job: JobId)
    | Observed(index: nat, job: JobId, success: bool)
    | Failing
    | Done

  /** `born` is the position in the trace at which the thread was started. */
  datatype Worker = Worker(run: nat, bootstrap: bool, born: nat, pc: Pc)
  {
    function ActiveStatus(): Status { if bootstrap then Bootstrapping else Configuring }
  }

  datatype Collector = Collector(run: nat, collection: nat)

  /** The holder of the lock between two actions of one locked section. */
  datatype Held =
    | Free
    | DeployIntended(run: nat)
    | DeployAnswered(run: nat, job: Option<JobId>, linked: bool)
    | StepAnswered(worker: nat, index: nat, job: Option<JobId>)

  /** What was reviewed when a thread was started: the time, the steps from the
      recorded ones to the thread's end, which of them policy bars, the individual
      approvals, and which approvals were checked. */
  datatype Start = Start(bootstrap: bool, at: nat, recorded: nat, end: nat, barred: set<nat>, approvals: map<nat, nat>,
                         checked: set<nat>)

  datatype Event =
    | DeploySubmitted(run: nat)
    | CollectionStarted(run: nat, collection: nat)
    | EvidenceRecorded(run: nat, at: nat, source: Option<nat>)
    | ThreadStarted(run: nat, start: Start)
    | StepSubmitted(run: nat, index: nat, payload: Payload, thread: nat, restricted: bool, verified: bool)
    | JobLinked(run: nat, index: nat, job: JobId, created: nat, payload: Payload, restricted: bool)
    | Reconciled(run: nat, resumed: bool)

  /** `succeeded` keeps every job as it was when it succeeded; `unsaved` are the jobs
      that were queued for a run and that no stored record names yet. */
  datatype World = World(
    datacenters: map<nat, Datacenter>, profiles: map<nat, Profile>, runs: seq<Run>,
    jobs: map<JobId, Job>, nextJob: JobId, succeeded: map<JobId, Job>, unsaved: set<JobId>,
    workers: seq<Worker>, collectors: set<Collector>, nextCollection: nat, held: Held,
    now: nat, trace: seq<Event>)

  function Init(): World {
    World(map[], map[], [], map[], 0, map[], {}, [], {}, 0, Free, 0, [])
  }

  /******* Actions: a request or thread step with its environment's answers *******/

  datatype Action =
    | SaveDatacenter(id: nat, create: bool, endpoint: string, reviewed: bool)
    | SaveProfile(id: nat, create: bool, current: bool, dc: nat, content: DeployIntent, valid: bool, pipeline: nat,
                  files: seq<(Workflow, string, PostConfig)>)
    | Approve(id: nat, body: Body)
    | Archive(id: nat, confirmed: bool)
    | Restore(id: nat, confirmed: bool)
    | Delete(id: nat, confirmed: bool, unreferenced: bool)
    | Prepare(id: nat, body: Body, undrifted: bool)
    | DeployBegin(run: nat, confirmed: bool)
    | DeploySubmit(accepted: bool, created: bool, linked: bool)
    | DeployFinish
    | Observe(run: nat)
    | AttestHealth(run: nat, confirmed: bool)
    | StartBootstrap(run: nat, confirmed: bool, barred: set<nat>, approvals: map<nat, nat>, checked: set<nat>)
    | CollectBegin(run: nat)
    | CollectEnd(collector: Collector, passed: bool)
    | StartConfiguration(run: nat, confirmed: bool, barred: set<nat>)
    | WorkerTop(worker: nat, restricted: bool, verified: bool, accepted: bool, created: bool)
    | WorkerSave
    | WorkerPoll(worker: nat)
    | WorkerRecord(worker: nat)
    | WorkerFail(worker: nat)
    | LinkJob(run: nat, job: JobId, restricted: bool)
    | Accept(run: nat, confirmed: bool)
    | Reconcile(run: nat, confirmed: bool, resume: bool)
    | ClosePrepared(run: nat, confirmed: bool)
    | Stop(run: nat, cancelled: bool)
    | Crash
    | OrdinaryJob(workflow: Workflow, payload: Payload)
    | JobMoves(job: JobId, status: JobStatus)
    | JobDeleted(job: JobId)
    | Tick(elapsed: nat)

  /******* Jobs *******/

  function JobOf(w: World, id: Option<JobId>): Option<Job> {
    if id.Some? && id.value in w.jobs then Some(w.jobs[id.value]) else None
  }

  predicate Succeeded(w: World, id: Option<JobId>) {
    JobOf(w, id).Some? && JobOf(w, id).value.status == Success
  }

  function AddJob(w: World, workflow: Workflow, payload: Payload): World {
    w.(jobs := w.jobs[w.nextJob := Job(workflow, Queued, w.now, payload, None)], nextJob := w.nextJob + 1)
  }

  function CancelJob(jobs: map<JobId, Job>, id: Option<JobId>): map<JobId, Job> {
    if id.None? || id.value !in jobs || jobs[id.value].status in TERMINAL_JOBS then jobs
    else jobs[id.value := jobs[id.value].(status := if jobs[id.value].status == Queued then Cancelled else Cancelling)]
  }

  function DoOrdinaryJob(w: World, workflow: Workflow, payload: Payload): World {
    if w.held == Free && (workflow == FoundationDeploy ==> payload.Deploy? && GuardAllows(w, payload.content, None)) then
      AddJob(w, workflow, payload)
    else w
  }

  /** Jobs reach a terminal state once and keep it until they are deleted. */
  function DoJobMoves(w: World, job: JobId, status: JobStatus): World {
    if job in w.jobs && w.jobs[job].status !in TERMINAL_JOBS then
      w.(jobs := w.jobs[job := w.jobs[job].(status := status)],
         succeeded := if status == Success then w.succeeded[job := w.jobs[job].(status := status)] else w.succeeded)
    else w
  }

  function DoJobDeleted(w: World, job: JobId): World {
    if job in w.jobs && w.jobs[job].status in TERMINAL_JOBS then w.(jobs := w.jobs - {job}) else w
  }

  /******* Datacenters and profiles *******/

  function DoSaveDatacenter(w: World, id: nat, create: bool, endpoint: string, reviewed: bool): World {
    if && w.held == Free
       && (create <==> id !in w.datacenters)
       && !exists r :: 0 <= r < |w.runs| && w.runs[r].datacenter == id && Active(w.runs[r].status)
    then w.(datacenters := w.datacenters[id := Datacenter(endpoint, reviewed)])
    else w
  }

  /** Runs of a profile that keep it from being edited, archived or restored. */
  predicate Blocked(runs: seq<Run>, id: nat) {
    exists r :: 0 <= r < |runs| && runs[r].profile == id && !Closed(runs[r].status)
  }

  predicate TargetsOnly(config: PostConfig, cluster: ClusterIntent) {
    && config.clusters.Some?
    && |config.clusters.value| == 1
    && config.clusters.value[0].0 == cluster.vip
    && config.clusters.value[0].1.YMap?
    && Get(config.clusters.value[0].1.entries, "name") == YStr(cluster.name)
  }

  predicate Capturable(w: World, dc: nat, content: DeployIntent, valid: bool, files: seq<(Workflow, string, PostConfig)>) {
    && dc in w.datacenters
    && valid
    && |content.clusters| == 1
    && content.endpoint == w.datacenters[dc].endpoint
    && content.clusters[0].formation
    && 1 <= |files| <= 30
    && forall k :: 0 <= k < |files| ==> files[k].0 in POST_ACTIONS && TargetsOnly(files[k].2, content.clusters[0])
  }

  function Capture(w: World, dc: nat, content: DeployIntent, pipeline: nat, files: seq<(Workflow, string, PostConfig)>): Body
    requires dc in w.datacenters && |content.clusters| == 1
  {
    var cluster := content.clusters[0];
    Body(content, w.datacenters[dc].endpoint, pipeline,
         seq(|files|, k requires 0 <= k < |files| => StepIntent(files[k].0, files[k].1, files[k].2, Digest(files[k].2))),
         cluster.name, cluster.vip, (set s | s in cluster.serials), w.now)
  }

  function DoSaveProfile(w: World, id: nat, create: bool, current: bool, dc: nat, content: DeployIntent, valid: bool,
                         pipeline: nat, files: seq<(Workflow, string, PostConfig)>): World {
    if && w.held == Free
       && (create <==> id !in w.profiles)
       && (!create ==> current && !w.profiles[id].archived && !Blocked(w.runs, id))
       && Capturable(w, dc, content, valid, files)
    then
      var earlier := if create then [] else w.profiles[id].revisions;
      var revision := Revision(Capture(w, dc, content, pipeline, files), |earlier| + 1, false);
      w.(profiles := w.profiles[id := Profile(dc, earlier + [revision], false)])
    else w
  }

  function LastRevision(p: Profile): Revision
    requires p.revisions != []
  {
    p.revisions[|p.revisions| - 1]
  }

  function DoApprove(w: World, id: nat, body: Body): World {
    if && w.held == Free && id in w.profiles && !w.profiles[id].archived
       && w.profiles[id].revisions != [] && LastRevision(w.profiles[id]).body == body
    then
      var p := w.profiles[id];
      w.(profiles := w.profiles[id := p.(revisions := p.revisions[|p.revisions| - 1 := LastRevision(p).(reviewed := true)])])
    else w
  }

  function DoArchive(w: World, id: nat, confirmed: bool): World {
    if w.held == Free && id in w.profiles && confirmed && !w.profiles[id].archived && !Blocked(w.runs, id) then
      w.(profiles := w.profiles[id := w.profiles[id].(archived := true)])
    else w
  }

  function DoRestore(w: World, id: nat, confirmed: bool): World {
    if w.held == Free && id in w.profiles && confirmed && w.profiles[id].archived && !Blocked(w.runs, id) then
      w.(profiles := w.profiles[id := w.profiles[id].(archived := false)])
    else w
  }

  function DoDelete(w: World, id: nat, confirmed: bool, unreferenced: bool): World {
    if && w.held == Free && id in w.profiles && confirmed && unreferenced
       && !exists r :: 0 <= r < |w.runs| && w.runs[r].profile == id
    then w.(profiles := w.profiles - {id})
    else w
  }

  /** `undrifted`: no saved file or pipeline drifted from the reviewed baseline. */
  function DoPrepare(w: World, id: nat, body: Body, undrifted: bool): World {
    if && w.held == Free && id in w.profiles && !w.profiles[id].archived
       && w.profiles[id].revisions != []
       && var p := w.profiles[id];
       && LastRevision(p).reviewed && LastRevision(p).body == body
       && p.datacenter in w.datacenters && w.datacenters[p.datacenter].reviewed
       && w.datacenters[p.datacenter].endpoint == body.endpoint
       && undrifted
    then
      var p := w.profiles[id];
      w.(runs := w.runs + [Run(id, p.datacenter, LastRevision(p), Prepared, [], None, None, None, None, false, map[])])
    else w
  }

  /******* Foundation deployment *******/

  predicate Conflicts(content: DeployIntent, endpoint: string, serials: set<string>) {
    content.endpoint == endpoint || !(Serials(content) !! serials)
  }

  /** `foundation_guard`: no other active run and no unfinished Foundation job
      owns the endpoint or a node. */
  predicate GuardAllows(w: World, content: DeployIntent, owner: Option<nat>) {
    && (forall r :: 0 <= r < |w.runs| && owner != Some(r) && Active(w.runs[r].status) ==>
          !Conflicts(content, w.runs[r].snapshot.body.endpoint, w.runs[r].snapshot.body.targets))
    && (forall j :: j in w.jobs && w.jobs[j].workflow == FoundationDeploy && w.jobs[j].status in {Queued, Running, Cancelling} ==>
          && w.jobs[j].payload.Deploy?
          && !Conflicts(content, w.jobs[j].payload.content.endpoint, Serials(w.jobs[j].payload.content)))
  }

  /******* Changes: what one action does to one run *******/

  datatype Thread = NoThread | Spawn(bootstrap: bool, born: nat) | Moves(worker: nat, pc: Pc)

  /** The effect of an action on run `r`, and on the process around it. */
  datatype Change = Change(r: nat, run: Run, emit: seq<Event>, thread: Thread, held: Held,
                           jobs: map<JobId, Job>, nextJob: JobId, unsaved: set<JobId>,
                           collectors: set<Collector>, nextCollection: nat)

  predicate Fits(w: World, c: Change) {
    c.r < |w.runs| && (c.thread.Moves? ==> c.thread.worker < |w.workers| && w.workers[c.thread.worker].run == c.r)
  }

  function Threads(workers: seq<Worker>, r: nat, thread: Thread): seq<Worker>
    requires thread.Moves? ==> thread.worker < |workers|
  {
    match thread
    case NoThread => workers
    case Spawn(bootstrap, born) => workers + [Worker(r, bootstrap, born, Top)]
    case Moves(k, pc) => workers[k := workers[k].(pc := pc)]
  }

  function Apply(w: World, c: Change): World
    requires Fits(w, c)
  {
    w.(runs := w.runs[c.r := c.run], trace := w.trace + c.emit, workers := Threads(w.workers, c.r, c.thread),
       held := c.held, jobs := c.jobs, nextJob := c.nextJob, unsaved := c.unsaved, collectors := c.collectors,
       nextCollection := c.nextCollection)
  }

  function Becomes(w: World, r: nat, run: Run): Change {
    Change(r, run, [], NoThread, w.held, w.jobs, w.nextJob, w.unsaved, w.collectors, w.nextCollection)
  }

  /** A job queued for the run of the change; so far no record names it. */
  function WithJob(c: Change, now: nat, workflow: Workflow, payload: Payload): Change {
    c.(jobs := c.jobs[c.nextJob := Job(workflow, Queued, now, payload, Some(c.r))], nextJob := c.nextJob + 1,
       unsaved := c.unsaved + {c.nextJob})
  }

  /******* Foundation deployment *******/

  function OnDeployBegin(w: World, r: nat, confirmed: bool): Option<Change> {
    if && w.held == Free && r < |w.runs| && w.runs[r].status == Prepared && confirmed
       && var run := w.runs[r];
       && run.datacenter in w.datacenters
       && w.datacenters[run.datacenter].endpoint == run.snapshot.body.endpoint
       && w.datacenters[run.datacenter].reviewed
       && GuardAllows(w, run.snapshot.body.content, Some(r))
    then Some(Becomes(w, r, w.runs[r].(status := Submitting)).(held := DeployIntended(r)))
    else None
  }

  /** The call of `submit`. A submission can be rejected after a job was queued. */
  function OnDeploySubmit(w: World, accepted: bool, created: bool, linked: bool): Option<Change> {
    if w.held.DeployIntended? && w.held.run < |w.runs| then
      var r := w.held.run;
      var c := Becomes(w, r, w.runs[r]).(emit := [DeploySubmitted(r)],
                                         held := DeployAnswered(r, if accepted then Some(w.nextJob) else None, linked));
      Some(if accepted || created then WithJob(c, w.now, FoundationDeploy, Deploy(w.runs[r].snapshot.body.content)) else c)
    else None
  }

  function Saved(unsaved: set<JobId>, job: Option<JobId>): set<JobId> {
    if job.Some? then unsaved - {job.value} else unsaved
  }

  function OnDeployFinish(w: World): Option<Change> {
    if w.held.DeployAnswered? && w.held.run < |w.runs| then
      var run := w.runs[w.held.run];
      var run' := if w.held.job.None? then run.(status := NeedsReconciliation)
                  else run.(deploymentJob := w.held.job, status := if w.held.linked then Deploying else NeedsReconciliation);
      Some(Becomes(w, w.held.run, run').(held := Free, unsaved := Saved(w.unsaved, w.held.job)))
    else None
  }

  /** Reading a run settles a finished deployment. */
  ghost function Refresh(w: World, run: Run): Run {
    if run.status != Deploying then run
    else
      var job := JobOf(w, run.deploymentJob);
      if job.None? || job.value.status in {Failed, Cancelled, Interrupted} then run.(status := NeedsReconciliation)
      else if job.value.status == Success then
        run.(status := if |run.steps| < BootstrapCount(run.Intent()) then AwaitingBootstrap else AwaitingHealth)
      else run
  }

  ghost function OnObserve(w: World, r: nat): Option<Change> {
    if w.held == Free && r < |w.runs| then Some(Becomes(w, r, Refresh(w, w.runs[r]))) else None
  }

  /******* Health evidence *******/

  /** The first `through` steps are recorded, in order, with jobs that still
      exist, succeeded and ran the step's workflow. */
  predicate BootstrapRecorded(w: World, run: Run, through: nat) {
    && through <= |run.steps|
    && through <= |run.Intent()|
    && forall k :: 0 <= k < through ==>
         && run.steps[k].index == k
         && run.steps[k].sha == run.Intent()[k].sha
         && Succeeded(w, Some(run.steps[k].job))
         && w.jobs[run.steps[k].job].workflow == run.Intent()[k].workflow
  }

  ghost predicate HealthCheckable(w: World, run: Run) {
    && run.status in {AwaitingHealth, Ready}
    && BootstrapRecorded(w, run, BootstrapCount(run.Intent()))
    && Succeeded(w, run.deploymentJob)
  }

  function WithEvidence(w: World, r: nat, run: Run, collection: Option<nat>): Change {
    Becomes(w, r, run.(evidence := Some(Evidence(w.now, run.deploymentJob)), status := Ready))
      .(emit := [EvidenceRecorded(r, w.now, collection)])
  }

  ghost function OnAttestHealth(w: World, r: nat, confirmed: bool): Option<Change> {
    if w.held == Free && r < |w.runs| && HealthCheckable(w, Refresh(w, w.runs[r])) && confirmed then
      Some(WithEvidence(w, r, Refresh(w, w.runs[r]), None))
    else None
  }

  ghost function OnCollectBegin(w: World, r: nat): Option<Change> {
    if w.held == Free && r < |w.runs| && HealthCheckable(w, Refresh(w, w.runs[r])) then
      var run := Refresh(w, w.runs[r]).(collection := Some(w.nextCollection), evidence := None, status := AwaitingHealth);
      Some(Becomes(w, r, run).(collectors := w.collectors + {Collector(r, w.nextCollection)}, nextCollection := w.nextCollection + 1,
                               emit := [CollectionStarted(r, w.nextCollection)]))
    else None
  }

  /** The collection ran without the lock. Its result counts only while it is the
      last one started and the run still waits for it. */
  function OnCollectEnd(w: World, c: Collector, passed: bool): Option<Change> {
    if w.held == Free && c in w.collectors && c.run < |w.runs| then
      var run := w.runs[c.run];
      var change :=
        if run.collection == Some(c.collection) && run.status == AwaitingHealth && passed then
          WithEvidence(w, c.run, run, Some(c.collection))
        else Becomes(w, c.run, run);
      Some(change.(collectors := w.collectors - {c}))
    else None
  }

  /******* Bootstrap and configuration *******/

  ghost predicate BootstrapApproved(run: Run, barred: set<nat>, approvals: map<nat, nat>, checked: set<nat>) {
    var start, end := |run.steps|, BootstrapCount(run.Intent());
    && (forall i :: i in approvals ==> start <= i < end)
    && (forall i, j :: i in approvals && j in approvals && i != j ==> approvals[i] != approvals[j])
    && (forall i :: start <= i < end && (i in barred || i in approvals) ==> i in approvals && i in checked)
  }

  ghost function OnStartBootstrap(w: World, r: nat, confirmed: bool, barred: set<nat>, approvals: map<nat, nat>,
                                  checked: set<nat>): Option<Change> {
    if && w.held == Free && r < |w.runs|
       && var run := Refresh(w, w.runs[r]);
       && run.status in {AwaitingBootstrap, AwaitingHealth}
       && Succeeded(w, run.deploymentJob)
       && |run.steps| < BootstrapCount(run.Intent())
       && (run.steps != [] ==> run.resumeApproved)
       && BootstrapRecorded(w, run, |run.steps|)
       && confirmed
       && BootstrapApproved(run, barred, approvals, checked)
    then
      var run := Refresh(w, w.runs[r]);
      var start := Start(true, w.now, |run.steps|, BootstrapCount(run.Intent()), barred, approvals, checked);
      Some(Becomes(w, r, run.(approvals := approvals, resumeApproved := false, status := Bootstrapping))
             .(thread := Spawn(true, |w.trace|), emit := [ThreadStarted(r, start)]))
    else None
  }

  const EVIDENCE_WINDOW := 900

  ghost function OnStartConfiguration(w: World, r: nat, confirmed: bool, barred: set<nat>): Option<Change> {
    if && w.held == Free && r < |w.runs| && w.runs[r].status == Ready
       && var run := w.runs[r];
       && BootstrapRecorded(w, run, BootstrapCount(run.Intent()))
       && run.evidence.Some? && w.now - run.evidence.value.at <= EVIDENCE_WINDOW
       && (forall i :: |run.steps| <= i < |run.Intent()| ==> i !in barred)
       && confirmed
    then
      var run := w.runs[r];
      var start := Start(false, w.now, |run.steps|, |run.Intent()|, barred, map[], {});
      Some(Becomes(w, r, run.(status := Configuring)).(thread := Spawn(false, |w.trace|), emit := [ThreadStarted(r, start)]))
    else None
  }

  ghost function End(worker: Worker, run: Run): nat {
    if worker.bootstrap then BootstrapCount(run.Intent()) else |run.Intent()|
  }

  /** The checks of the pending step: policy, the bootstrap restriction, its approval. */
  predicate StepRefused(worker: Worker, run: Run, restricted: bool, verified: bool) {
    var index := |run.steps|;
    var approval := worker.bootstrap && index in run.approvals;
    || index >= |run.Intent()|
    || (restricted && !approval)
    || (worker.bootstrap && !BootstrapStep(run.Intent()[index]))
    || (approval && !verified)
  }

  /** The approval under which a thread submits a step, if it has one. */
  function ApprovalFor(worker: Worker, run: Run, index: nat): Option<nat> {
    if worker.bootstrap && index in run.approvals then Some(run.approvals[index]) else None
  }

  /** The first locked section of the `_configure` loop, up to `submit`. */
  ghost function OnWorkerTop(w: World, k: nat, restricted: bool, verified: bool, accepted: bool, created: bool): Option<Change> {
    if w.held == Free && k < |w.workers| && w.workers[k].pc == Top && w.workers[k].run < |w.runs| then
      var worker := w.workers[k];
      var run := w.runs[worker.run];
      var index := |run.steps|;
      var stay := Becomes(w, worker.run, run);
      Some(
        if run.status != worker.ActiveStatus() then stay.(thread := Moves(k, Done))
        else if index == End(worker, run) then
          stay.(run := run.(status := if worker.bootstrap then AwaitingHealth else AwaitingAcceptance), thread := Moves(k, Done))
        else if StepRefused(worker, run, restricted, verified) then stay.(thread := Moves(k, Failing))
        else
          var step := run.Intent()[index];
          var payload := Configure(step.config, ApprovalFor(worker, run, index), false);
          var c := stay.(emit := [StepSubmitted(worker.run, index, payload, worker.born, restricted, verified)],
                         thread := Moves(k, Answered),
                         held := StepAnswered(k, index, if accepted then Some(w.nextJob) else None));
          if accepted || created then WithJob(c, w.now, step.workflow, payload) else c)
    else None
  }

  function OnWorkerSave(w: World): Option<Change> {
    if w.held.StepAnswered? && w.held.worker < |w.workers| && w.workers[w.held.worker].run < |w.runs| then
      var k, r := w.held.worker, w.workers[w.held.worker].run;
      var stay := Becomes(w, r, w.runs[r]).(held := Free, unsaved := Saved(w.unsaved, w.held.job));
      Some(if w.held.job.None? then stay.(thread := Moves(k, Failing))
           else stay.(run := w.runs[r].(currentJob := w.held.job), thread := Moves(k, Polling(w.held.index, w.held.job.value))))
    else None
  }

  /** The unlocked wait ends when the job is missing or terminal. */
  function OnWorkerPoll(w: World, k: nat): Option<Change> {
    if && w.held == Free && k < |w.workers| && w.workers[k].pc.Polling? && w.workers[k].run < |w.runs|
       && var job := JobOf(w, Some(w.workers[k].pc.job));
       && (job.None? || job.value.status in TERMINAL_JOBS)
    then
      var pc := w.workers[k].pc;
      Some(Becomes(w, w.workers[k].run, w.runs[w.workers[k].run])
             .(thread := Moves(k, Observed(pc.index, pc.job, Succeeded(w, Some(pc.job))))))
    else None
  }

  /** The second locked section: only the status name is compared again. */
  function OnWorkerRecord(w: World, k: nat): Option<Change> {
    if w.held == Free && k < |w.workers| && w.workers[k].pc.Observed? && w.workers[k].run < |w.runs| then
      var worker, run := w.workers[k], w.runs[w.workers[k].run];
      var stay := Becomes(w, worker.run, run);
      Some(
        if run.status != worker.ActiveStatus() then stay.(thread := Moves(k, Done))
        else if !worker.pc.success || worker.pc.index >= |run.Intent()| then stay.(thread := Moves(k, Failing))
        else
          var step := run.Intent()[worker.pc.index];
          stay.(run := run.(steps := run.steps + [Recorded(worker.pc.index, step.workflow, worker.pc.job, step.sha)]),
                thread := Moves(k, Top)))
    else None
  }

  function OnWorkerFail(w: World, k: nat): Option<Change> {
    if w.held == Free && k < |w.workers| && w.workers[k].pc == Failing && w.workers[k].run < |w.runs| then
      var run := w.runs[w.workers[k].run];
      var run' := if run.status in {Configuring, Bootstrapping} then run.(status := NeedsReconciliation) else run;
      Some(Becomes(w, w.workers[k].run, run').(thread := Moves(k, Done)))
    else None
  }

  function OnLinkJob(w: World, r: nat, j: JobId, restricted: bool): Option<Change> {
    if && w.held == Free && r < |w.runs| && w.runs[r].status == Ready
       && var run := w.runs[r];
       && |run.steps| < |run.Intent()|
       && (forall k :: 0 <= k < |run.steps| ==> run.steps[k].job != j)
       && Succeeded(w, Some(j))
       && var step, job := run.Intent()[|run.steps|], w.jobs[j];
       && job.workflow == step.workflow
       && job.payload.Configure? && !job.payload.dryRun && job.payload.config == step.config
       && (restricted ==> job.payload.approval.Some?)
       && run.evidence.Some? && run.evidence.value.at <= job.created <= run.evidence.value.at + EVIDENCE_WINDOW
    then
      var run := w.runs[r];
      var step := run.Intent()[|run.steps|];
      var steps := run.steps + [Recorded(|run.steps|, step.workflow, j, step.sha)];
      var linked := JobLinked(r, |run.steps|, j, w.jobs[j].created, w.jobs[j].payload, restricted);
      Some(Becomes(w, r, run.(steps := steps, status := if |steps| == |run.Intent()| then AwaitingAcceptance else Ready))
             .(emit := [linked]))
    else None
  }

  /******* Acceptance, reconciliation, closing, stopping *******/

  function OnAccept(w: World, r: nat, confirmed: bool): Option<Change> {
    if && w.held == Free && r < |w.runs| && w.runs[r].status == AwaitingAcceptance
       && var run := w.runs[r];
       && |run.steps| == |run.Intent()|
       && Succeeded(w, run.deploymentJob)
       && (forall k :: 0 <= k < |run.steps| ==> Succeeded(w, Some(run.steps[k].job)))
       && confirmed
    then Some(Becomes(w, r, w.runs[r].(status := Accepted)))
    else None
  }

  predicate JobIdle(w: World, id: Option<JobId>) {
    JobOf(w, id).None? || JobOf(w, id).value.status in TERMINAL_JOBS
  }

  /** No pending step may change a password whose earlier change is uncertain. */
  predicate Resumable(w: World, run: Run) {
    && Succeeded(w, run.deploymentJob)
    && forall i :: |run.steps| <= i < |run.Intent()| ==> !ChangesPassword(run.Intent()[i])
  }

  ghost function OnReconcile(w: World, r: nat, confirmed: bool, resume: bool): Option<Change> {
    if && w.held == Free && r < |w.runs| && Active(w.runs[r].status)
       && JobIdle(w, w.runs[r].deploymentJob) && JobIdle(w, w.runs[r].currentJob)
       && confirmed
       && (resume ==> Resumable(w, w.runs[r]))
    then
      var run := w.runs[r];
      var run' :=
        if !resume then run.(status := ClosedReconciled)
        else if |run.steps| < BootstrapCount(run.Intent()) then
          run.(status := AwaitingBootstrap, resumeApproved := true, evidence := None)
        else run.(status := AwaitingHealth, evidence := None);
      Some(Becomes(w, r, run').(emit := [Reconciled(r, resume)]))
    else None
  }

  function OnClosePrepared(w: World, r: nat, confirmed: bool): Option<Change> {
    if && w.held == Free && r < |w.runs| && w.runs[r].status == Prepared && confirmed
       && w.runs[r].deploymentJob.None? && w.runs[r].currentJob.None? && w.runs[r].steps == []
    then Some(Becomes(w, r, w.runs[r].(status := ClosedReconciled)))
    else None
  }

  /** The stop is stored before the jobs are cancelled; `cancelled` is false when
      the process dies in between. */
  function OnStop(w: World, r: nat, cancelled: bool): Option<Change> {
    if w.held == Free && r < |w.runs| && Active(w.runs[r].status) then
      var c := Becomes(w, r, w.runs[r].(status := NeedsReconciliation));
      Some(if cancelled then c.(jobs := CancelJob(CancelJob(w.jobs, w.runs[r].deploymentJob), w.runs[r].currentJob)) else c)
    else None
  }

  /** What the deployment and the health gate change; None when the service refuses. */
  ghost function Settle(w: World, a: Action): (c: Option<Change>)
    ensures c.Some? ==> Fits(w, c.value) && c.value.thread.NoThread?
  {
    match a
    case DeployBegin(r, confirmed) => OnDeployBegin(w, r, confirmed)
    case DeploySubmit(accepted, created, linked) => OnDeploySubmit(w, accepted, created, linked)
    case DeployFinish => OnDeployFinish(w)
    case Observe(r) => OnObserve(w, r)
    case AttestHealth(r, confirmed) => OnAttestHealth(w, r, confirmed)
    case CollectBegin(r) => OnCollectBegin(w, r)
    case CollectEnd(c, passed) => OnCollectEnd(w, c, passed)
    case _ => None
  }

  /** What the other administrator requests change; None when the service refuses. */
  ghost function Order(w: World, a: Action): (c: Option<Change>)
    ensures c.Some? ==> Fits(w, c.value) && !c.value.thread.Moves?
  {
    match a
    case StartBootstrap(r, confirmed, barred, approvals, checked) =>
      OnStartBootstrap(w, r, confirmed, barred, approvals, checked)
    case StartConfiguration(r, confirmed, barred) => OnStartConfiguration(w, r, confirmed, barred)
    case LinkJob(r, j, restricted) => OnLinkJob(w, r, j, restricted)
    case Accept(r, confirmed) => OnAccept(w, r, confirmed)
    case Reconcile(r, confirmed, resume) => OnReconcile(w, r, confirmed, resume)
    case ClosePrepared(r, confirmed) => OnClosePrepared(w, r, confirmed)
    case Stop(r, cancelled) => OnStop(w, r, cancelled)
    case _ => None
  }

  /** What a `_configure` thread changes. */
  ghost function Advance(w: World, a: Action): (c: Option<Change>)
    ensures c.Some? ==> Fits(w, c.value) && c.value.thread.Moves?
  {
    match a
    case WorkerTop(k, restricted, verified, accepted, created) => OnWorkerTop(w, k, restricted, verified, accepted, created)
    case WorkerSave => OnWorkerSave(w)
    case WorkerPoll(k) => OnWorkerPoll(w, k)
    case WorkerRecord(k) => OnWorkerRecord(w, k)
    case WorkerFail(k) => OnWorkerFail(w, k)
    case _ => None
  }

  ghost function Decide(w: World, a: Action): (c: Option<Change>)
    ensures c.Some? ==> Fits(w, c.value)
  {
    var c, d := Settle(w, a), Order(w, a);
    if c.Some? then c else if d.Some? then d else Advance(w, a)
  }

  /******* Restart *******/

  function RestartRun(run: Run): Run {
    if run.status in {Submitting, Bootstrapping, Configuring, Stopping} then run.(status := NeedsReconciliation) else run
  }

  /** The process dies between any two actions, and a new one starts from the
      stored document: threads, collections and the lock are gone. */
  function DoCrash(w: World): World {
    w.(runs := seq(|w.runs|, r requires 0 <= r < |w.runs| => RestartRun(w.runs[r])),
       workers := [], collectors := {}, held := Free)
  }

  /** Actions on profiles, datacenters and unrelated jobs leave every run alone. */
  function Elsewhere(w: World, a: Action): World {
    match a
    case SaveDatacenter(id, create, endpoint, reviewed) => DoSaveDatacenter(w, id, create, endpoint, reviewed)
    case SaveProfile(id, create, current, dc, content, valid, pipeline, files) =>
      DoSaveProfile(w, id, create, current, dc, content, valid, pipeline, files)
    case Approve(id, body) => DoApprove(w, id, body)
    case Archive(id, confirmed) => DoArchive(w, id, confirmed)
    case Restore(id, confirmed) => DoRestore(w, id, confirmed)
    case Delete(id, confirmed, unreferenced) => DoDelete(w, id, confirmed, unreferenced)
    case OrdinaryJob(workflow, payload) => DoOrdinaryJob(w, workflow, payload)
    case JobMoves(j, status) => DoJobMoves(w, j, status)
    case JobDeleted(j) => DoJobDeleted(w, j)
    case Tick(elapsed) => w.(now := w.now + elapsed)
    case _ => w
  }

  ghost function Step(w: World, a: Action): World {
    match a
    case Crash => DoCrash(w)
    case Prepare(id, body, undrifted) => DoPrepare(w, id, body, undrifted)
    case _ =>
      var c := Decide(w, a);
      if c.Some? then Apply(w, c.value) else Elsewhere(w, a)
  }

  /** The world after a history of actions. */
  ghost function After(history: seq<Action>): World {
    if history == [] then Init() else Step(After(history[..|history| - 1]), history[|history| - 1])
  }
}
