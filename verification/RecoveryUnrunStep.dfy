/**
 A complete history, from the empty service on, at whose end a run is accepted
 although its second step was never submitted. It takes one restart of the
 configuration inside a poll of the first thread, and no crash.
 */
module RecoveryUnrunStep {
  import opened Prelude
  import opened RecoveryIntent
  import opened RecoverySteps

  /******* The records of the example *******/

  const CLUSTER := ClusterIntent("c1", "10.0.0.9", true, ["S1"])
  const CONTENT := DeployIntent("f1", [CLUSTER])
  const CONFIG := PostConfig({"clusters"}, Some([("10.0.0.9", YMap(map["name" := YStr("c1")]))]))
  const FILES: seq<(Workflow, string, PostConfig)> := [(CreateLocalUsers, "a.yml", CONFIG), (CreateLocalUsers, "b.yml", CONFIG)]
  const STEPS: seq<StepIntent> :=
    [StepIntent(CreateLocalUsers, "a.yml", CONFIG, Digest(CONFIG)), StepIntent(CreateLocalUsers, "b.yml", CONFIG, Digest(CONFIG))]
  const BODY := Body(CONTENT, "f1", 0, STEPS, "c1", "10.0.0.9", {"S1"}, 0)

  function Rev(reviewed: bool): Revision {
    Revision(BODY, 1, reviewed)
  }

  function TheRun(status: Status, steps: seq<Recorded>, deployment: Option<JobId>, current: Option<JobId>, evidence: Option<Evidence>): Run {
    Run(0, 0, Rev(true), status, steps, deployment, current, evidence, None, false, map[])
  }

  /** Neither step is a bootstrap step, and neither changes a password. */
  lemma NothingIsBootstrap()
    ensures BootstrapCount(STEPS) == 0
    ensures forall k :: 0 <= k < |STEPS| ==> !ChangesPassword(STEPS[k])
  {
    assert !BootstrapStep(STEPS[0]);
    assert !BootstrapPrefix(STEPS, 1);
    PrefixMaximal(STEPS, 0);
    forall k | 0 <= k < |STEPS|
      ensures !ChangesPassword(STEPS[k])
    {
      assert STEPS[k].config == CONFIG;
      assert Get(map["name" := YStr("c1")], PASSWORD) == YNull;
    }
  }

  /******* A history and where it leads *******/

  datatype Path = Path(history: seq<Action>, w: World)

  ghost predicate Real(p: Path) {
    After(p.history) == p.w
  }

  lemma Then(p: Path, a: Action) returns (q: Path)
    requires Real(p)
    ensures Real(q) && q.w == Step(p.w, a)
  {
    q := Path(p.history + [a], Step(p.w, a));
    assert q.history[..|q.history| - 1] == p.history;
  }

  const DATACENTERS := map[0 := Datacenter("f1", true)]

  function Profiles(reviewed: bool): map<nat, Profile> {
    map[0 := Profile(0, [Rev(reviewed)], false)]
  }

  /** The world of the example: one run, its jobs and its threads. */
  function Here(run: Run, jobs: map<JobId, Job>, next: JobId, succeeded: map<JobId, Job>, workers: seq<Worker>, held: Held,
                trace: seq<Event>): World {
    World(DATACENTERS, Profiles(true), [run], jobs, next, succeeded, Answered(held), workers, {}, 0, held, 0, trace)
  }

  /** The job that was answered and is still to be stored. */
  function Answered(held: Held): set<JobId> {
    if (held.DeployAnswered? || held.StepAnswered?) && held.job.Some? then {held.job.value} else {}
  }

  lemma BodyIsCaptured(w: World)
    requires w.datacenters == DATACENTERS && w.now == 0
    ensures Capturable(w, 0, CONTENT, true, FILES) && Capture(w, 0, CONTENT, 0, FILES) == BODY
  {
    assert Get(map["name" := YStr("c1")], "name") == YStr("c1");
    assert forall k :: 0 <= k < |FILES| ==> FILES[k].2 == CONFIG && FILES[k].0 == CreateLocalUsers;
    assert TargetsOnly(CONFIG, CLUSTER);
    var body := Capture(w, 0, CONTENT, 0, FILES);
    assert body.steps == STEPS;
    assert body.targets == {"S1"};
  }

  lemma Saved(p: Path) returns (q: Path)
    requires Real(p) && p.w == Init()
    ensures Real(q) && q.w == World(DATACENTERS, Profiles(false), [], map[], 0, map[], {}, [], {}, 0, Free, 0, [])
  {
    q := Then(p, SaveDatacenter(0, true, "f1", true));
    assert q.w.datacenters == DATACENTERS;
    BodyIsCaptured(q.w);
    q := Then(q, SaveProfile(0, true, false, 0, CONTENT, true, 0, FILES));
    assert [] + [Rev(false)] == [Rev(false)];
    assert q.w.profiles == Profiles(false);
  }

  lemma Prepared(p: Path) returns (q: Path)
    requires Real(p) && p.w == World(DATACENTERS, Profiles(false), [], map[], 0, map[], {}, [], {}, 0, Free, 0, [])
    ensures Real(q) && q.w == Here(TheRun(Status.Prepared, [], None, None, None), map[], 0, map[], [], Free, [])
  {
    q := Then(p, Approve(0, BODY));
    assert [Rev(false)][0 := Rev(true)] == [Rev(true)];
    assert q.w.profiles == Profiles(true);
    q := Then(q, Prepare(0, BODY, true));
  }

  /** The Foundation job. */
  function Deployment(status: JobStatus): Job {
    Job(FoundationDeploy, status, 0, Payload.Deploy(CONTENT), Some(0))
  }

  function Submitted(run: Run, held: Held): World {
    Here(run, map[0 := Deployment(Queued)], 1, map[], [], held, [DeploySubmitted(0)])
  }

  lemma DeployBegins(w: World)
    requires w == Here(TheRun(Status.Prepared, [], None, None, None), map[], 0, map[], [], Free, [])
    ensures Step(w, DeployBegin(0, true)) == Here(TheRun(Submitting, [], None, None, None), map[], 0, map[], [], DeployIntended(0), [])
  {
    assert OnDeployBegin(w, 0, true).Some?;
  }

  lemma DeploymentSubmitted(p: Path) returns (q: Path)
    requires Real(p) && p.w == Here(TheRun(Status.Prepared, [], None, None, None), map[], 0, map[], [], Free, [])
    ensures Real(q) && q.w == Submitted(TheRun(Submitting, [], None, None, None), DeployAnswered(0, Some(0), true))
  {
    DeployBegins(p.w);
    q := Then(p, DeployBegin(0, true));
    q := Then(q, DeploySubmit(true, true, true));
  }

  /** The deployment has succeeded. */
  function Ready(status: Status, steps: seq<Recorded>, current: Option<JobId>, jobs: map<JobId, Job>, next: JobId, done: set<JobId>,
                 workers: seq<Worker>, held: Held, trace: seq<Event>): World {
    var evidence := if status == Deploying || status == AwaitingHealth then None else Some(Evidence(0, Some(0)));
    Here(TheRun(status, steps, Some(0), current, evidence), jobs, next,
         map j | j in done :: if j == 0 then Deployment(Success) else StepJob(Success), workers, held, trace)
  }

  const ONE_JOB: map<JobId, Job> := map[0 := Deployment(Success)]

  lemma Settles(w: World)
    requires w == Submitted(TheRun(Submitting, [], None, None, None), DeployAnswered(0, Some(0), true))
    ensures Step(w, DeployFinish) == Submitted(TheRun(Deploying, [], Some(0), None, None), Free)
  {
  }

  lemma Succeeds(w: World)
    requires w == Submitted(TheRun(Deploying, [], Some(0), None, None), Free)
    ensures Step(w, JobMoves(0, Success)) == Ready(Deploying, [], None, ONE_JOB, 1, {0}, [], Free, [DeploySubmitted(0)])
  {
    assert Step(w, JobMoves(0, Success)).jobs == ONE_JOB;
  }

  lemma Attests(w: World)
    requires w == Ready(Deploying, [], None, ONE_JOB, 1, {0}, [], Free, [DeploySubmitted(0)])
    ensures Step(w, AttestHealth(0, true)) == Ready(Status.Ready, [], None, ONE_JOB, 1, {0}, [], Free, BEGUN)
  {
    AttestAllowed(w);
  }

  lemma AttestAllowed(w: World)
    requires w == Ready(Deploying, [], None, ONE_JOB, 1, {0}, [], Free, [DeploySubmitted(0)])
    ensures OnAttestHealth(w, 0, true) == Some(WithEvidence(w, 0, w.runs[0].(status := AwaitingHealth), None))
  {
    NothingIsBootstrap();
    assert HealthCheckable(w, Refresh(w, w.runs[0]));
  }

  /******* Two threads *******/

  const PAYLOAD: Payload := Configure(CONFIG, None, false)

  function StepJob(status: JobStatus): Job {
    Job(CreateLocalUsers, status, 0, PAYLOAD, Some(0))
  }

  function TwoJobs(status: JobStatus): map<JobId, Job> {
    map[0 := Deployment(Success), 1 := StepJob(status)]
  }

  function ThreeJobs(status: JobStatus): map<JobId, Job> {
    map[0 := Deployment(Success), 1 := StepJob(Success), 2 := StepJob(status)]
  }

  function First(pc: Pc): Worker {
    Worker(0, false, 2, pc)
  }

  function Second(pc: Pc): Worker {
    Worker(0, false, 6, pc)
  }

  const VERIFIED: Event := EvidenceRecorded(0, 0, None)
  const START: Event := ThreadStarted(0, Start(false, 0, 0, 2, {}, map[], {}))
  const BEGUN: seq<Event> := [DeploySubmitted(0), VERIFIED]
  const STARTED: seq<Event> := BEGUN + [START]
  const ONCE: seq<Event> := STARTED + [StepSubmitted(0, 0, PAYLOAD, 2, false, true)]
  const RESUMED: seq<Event> := ONCE + [Reconciled(0, true)]
  const AGAIN: seq<Event> := RESUMED + [VERIFIED]
  const RESTARTED: seq<Event> := AGAIN + [START]
  const TWICE: seq<Event> := RESTARTED + [StepSubmitted(0, 0, PAYLOAD, 6, false, true)]

  /** The first thread starts, submits the first step and polls its job. */
  lemma FirstStarts(w: World)
    requires w == Ready(Status.Ready, [], None, ONE_JOB, 1, {0}, [], Free, BEGUN)
    ensures Step(w, StartConfiguration(0, true, {})) == Ready(Configuring, [], None, ONE_JOB, 1, {0}, [First(Top)], Free, STARTED)
  {
    NothingIsBootstrap();
    assert OnStartConfiguration(w, 0, true, {}).Some?;
  }

  lemma FirstSubmits(w: World)
    requires w == Ready(Configuring, [], None, ONE_JOB, 1, {0}, [First(Top)], Free, STARTED)
    ensures Step(w, WorkerTop(0, false, true, true, true)) ==
      Ready(Configuring, [], None, TwoJobs(Queued), 2, {0}, [First(Pc.Answered)], StepAnswered(0, 0, Some(1)), ONCE)
  {
    assert OnWorkerTop(w, 0, false, true, true, true).Some?;
  }

  lemma FirstPolls(w: World)
    requires w == Ready(Configuring, [], None, TwoJobs(Queued), 2, {0}, [First(Pc.Answered)], StepAnswered(0, 0, Some(1)), ONCE)
    ensures Step(w, WorkerSave) == Ready(Configuring, [], Some(1), TwoJobs(Queued), 2, {0}, [First(Polling(0, 1))], Free, ONCE)
  {
    assert OnWorkerSave(w).Some?;
  }

  lemma FirstJobSucceeds(w: World)
    requires w == Ready(Configuring, [], Some(1), TwoJobs(Queued), 2, {0}, [First(Polling(0, 1))], Free, ONCE)
    ensures Step(w, JobMoves(1, Success)) ==
      Ready(Configuring, [], Some(1), TwoJobs(Success), 2, {0, 1}, [First(Polling(0, 1))], Free, ONCE)
  {
    assert Step(w, JobMoves(1, Success)).jobs == TwoJobs(Success);
  }

  /** Before it wakes, the run is stopped, resumed, verified and started again. */
  function Asleep(status: Status, workers: seq<Worker>, trace: seq<Event>): World {
    Ready(status, [], Some(1), TwoJobs(Success), 2, {0, 1}, workers, Free, trace)
  }

  lemma IsStopped(w: World)
    requires w == Asleep(Configuring, [First(Polling(0, 1))], ONCE)
    ensures Step(w, Stop(0, true)) == Asleep(NeedsReconciliation, [First(Polling(0, 1))], ONCE)
  {
    assert OnStop(w, 0, true).Some?;
  }

  lemma IsResumed(w: World)
    requires w == Asleep(NeedsReconciliation, [First(Polling(0, 1))], ONCE)
    ensures Step(w, Reconcile(0, true, true)) == Asleep(AwaitingHealth, [First(Polling(0, 1))], RESUMED)
  {
    ResumeAllowed(w);
  }

  lemma ResumeAllowed(w: World)
    requires w == Asleep(NeedsReconciliation, [First(Polling(0, 1))], ONCE)
    ensures OnReconcile(w, 0, true, true) ==
      Some(Becomes(w, 0, w.runs[0].(status := AwaitingHealth, evidence := None)).(emit := [Reconciled(0, true)]))
  {
    NothingIsBootstrap();
    assert w.runs[0].Intent() == STEPS && Resumable(w, w.runs[0]);
  }

  lemma IsVerifiedAgain(w: World)
    requires w == Asleep(AwaitingHealth, [First(Polling(0, 1))], RESUMED)
    ensures Step(w, AttestHealth(0, true)) == Asleep(Status.Ready, [First(Polling(0, 1))], AGAIN)
  {
    VerifyAllowed(w);
  }

  lemma VerifyAllowed(w: World)
    requires w == Asleep(AwaitingHealth, [First(Polling(0, 1))], RESUMED)
    ensures OnAttestHealth(w, 0, true) == Some(WithEvidence(w, 0, w.runs[0], None))
  {
    NothingIsBootstrap();
    assert HealthCheckable(w, Refresh(w, w.runs[0]));
  }

  lemma SecondStarts(w: World)
    requires w == Asleep(Status.Ready, [First(Polling(0, 1))], AGAIN)
    ensures Step(w, StartConfiguration(0, true, {})) ==
      Asleep(Configuring, [First(Polling(0, 1)), Second(Top)], RESTARTED)
  {
    NothingIsBootstrap();
    assert OnStartConfiguration(w, 0, true, {}).Some?;
  }

  /** The second thread submits the first step once more. */
  lemma SecondSubmits(w: World)
    requires w == Asleep(Configuring, [First(Polling(0, 1)), Second(Top)], RESTARTED)
    ensures Step(w, WorkerTop(1, false, true, true, true)) ==
      Ready(Configuring, [], Some(1), ThreeJobs(Queued), 3, {0, 1}, [First(Polling(0, 1)), Second(Pc.Answered)], StepAnswered(1, 0, Some(2)), TWICE)
  {
    assert OnWorkerTop(w, 1, false, true, true, true).Some?;
    assert ThreeJobs(Queued) == TwoJobs(Success)[2 := StepJob(Queued)];
  }

  /** Both threads wait for a job of the first step. */
  function Both(status: Status, steps: seq<Recorded>, job: JobStatus, first: Pc, second: Pc): World {
    Ready(status, steps, Some(2), ThreeJobs(job), 3, if job == Success then {0, 1, 2} else {0, 1}, [First(first), Second(second)], Free, TWICE)
  }

  lemma SecondPolls(w: World)
    requires w == Ready(Configuring, [], Some(1), ThreeJobs(Queued), 3, {0, 1}, [First(Polling(0, 1)), Second(Pc.Answered)],
                        StepAnswered(1, 0, Some(2)), TWICE)
    ensures Step(w, WorkerSave) == Both(Configuring, [], Queued, Polling(0, 1), Polling(0, 2))
  {
    assert OnWorkerSave(w).Some?;
  }

  lemma SecondJobSucceeds(w: World)
    requires w == Both(Configuring, [], Queued, Polling(0, 1), Polling(0, 2))
    ensures Step(w, JobMoves(2, Success)) == Both(Configuring, [], Success, Polling(0, 1), Polling(0, 2))
  {
    SecondJobMoves(w);
  }

  lemma SecondJobMoves(w: World)
    requires w == Both(Configuring, [], Queued, Polling(0, 1), Polling(0, 2))
    ensures DoJobMoves(w, 2, Success) == Both(Configuring, [], Success, Polling(0, 1), Polling(0, 2))
  {
    assert DoJobMoves(w, 2, Success).jobs == ThreeJobs(Success);
  }

  lemma FirstWakes(w: World)
    requires w == Both(Configuring, [], Success, Polling(0, 1), Polling(0, 2))
    ensures Step(w, WorkerPoll(0)) == Both(Configuring, [], Success, Observed(0, 1, true), Polling(0, 2))
  {
    assert OnWorkerPoll(w, 0).Some?;
  }

  lemma SecondWakes(w: World)
    requires w == Both(Configuring, [], Success, Observed(0, 1, true), Polling(0, 2))
    ensures Step(w, WorkerPoll(1)) == Both(Configuring, [], Success, Observed(0, 1, true), Observed(0, 2, true))
  {
    assert OnWorkerPoll(w, 1).Some?;
  }

  /******* The first step is recorded twice *******/

  function Rec(job: JobId): Recorded {
    Recorded(0, CreateLocalUsers, job, Digest(CONFIG))
  }

  lemma FirstRecords(w: World)
    requires w == Both(Configuring, [], Success, Observed(0, 1, true), Observed(0, 2, true))
    ensures Step(w, WorkerRecord(0)) == Both(Configuring, [Rec(1)], Success, Top, Observed(0, 2, true))
  {
    assert OnWorkerRecord(w, 0).Some?;
    assert [] + [Rec(1)] == [Rec(1)];
  }

  lemma SecondRecords(w: World)
    requires w == Both(Configuring, [Rec(1)], Success, Top, Observed(0, 2, true))
    ensures Step(w, WorkerRecord(1)) == Both(Configuring, [Rec(1), Rec(2)], Success, Top, Top)
  {
    assert OnWorkerRecord(w, 1).Some?;
    assert [Rec(1)] + [Rec(2)] == [Rec(1), Rec(2)];
  }

  lemma FirstFinishes(w: World)
    requires w == Both(Configuring, [Rec(1), Rec(2)], Success, Top, Top)
    ensures Step(w, WorkerTop(0, false, true, true, true)) == Both(AwaitingAcceptance, [Rec(1), Rec(2)], Success, Done, Top)
  {
    assert OnWorkerTop(w, 0, false, true, true, true).Some?;
  }

  lemma IsAccepted(w: World)
    requires w == Both(AwaitingAcceptance, [Rec(1), Rec(2)], Success, Done, Top)
    ensures Step(w, Accept(0, true)) == Both(Accepted, [Rec(1), Rec(2)], Success, Done, Top)
  {
    AcceptAllowed(w);
  }

  lemma AcceptAllowed(w: World)
    requires w == Both(AwaitingAcceptance, [Rec(1), Rec(2)], Success, Done, Top)
    ensures OnAccept(w, 0, true) == Some(Becomes(w, 0, w.runs[0].(status := Accepted)))
  {
    assert forall k :: 0 <= k < 2 ==> Succeeded(w, Some(w.runs[0].steps[k].job));
  }

  /******* The whole history *******/

  lemma UntilVerified(p: Path) returns (q: Path)
    requires Real(p) && p.w == Submitted(TheRun(Submitting, [], None, None, None), DeployAnswered(0, Some(0), true))
    ensures Real(q) && q.w == Ready(Status.Ready, [], None, ONE_JOB, 1, {0}, [], Free, BEGUN)
  {
    Settles(p.w);
    q := Then(p, DeployFinish);
    Succeeds(q.w);
    q := Then(q, JobMoves(0, Success));
    Attests(q.w);
    q := Then(q, AttestHealth(0, true));
  }

  lemma UntilPolling(p: Path) returns (q: Path)
    requires Real(p) && p.w == Ready(Status.Ready, [], None, ONE_JOB, 1, {0}, [], Free, BEGUN)
    ensures Real(q) && q.w == Asleep(Configuring, [First(Polling(0, 1))], ONCE)
  {
    FirstStarts(p.w);
    q := Then(p, StartConfiguration(0, true, {}));
    FirstSubmits(q.w);
    q := Then(q, WorkerTop(0, false, true, true, true));
    FirstPolls(q.w);
    q := Then(q, WorkerSave);
    FirstJobSucceeds(q.w);
    q := Then(q, JobMoves(1, Success));
  }

  lemma UntilRestarted(p: Path) returns (q: Path)
    requires Real(p) && p.w == Asleep(Configuring, [First(Polling(0, 1))], ONCE)
    ensures Real(q) && q.w == Asleep(Configuring, [First(Polling(0, 1)), Second(Top)], RESTARTED)
  {
    IsStopped(p.w);
    q := Then(p, Stop(0, true));
    IsResumed(q.w);
    q := Then(q, Reconcile(0, true, true));
    IsVerifiedAgain(q.w);
    q := Then(q, AttestHealth(0, true));
    SecondStarts(q.w);
    q := Then(q, StartConfiguration(0, true, {}));
  }

  lemma UntilBothWake(p: Path) returns (q: Path)
    requires Real(p) && p.w == Asleep(Configuring, [First(Polling(0, 1)), Second(Top)], RESTARTED)
    ensures Real(q) && q.w == Both(Configuring, [], Success, Observed(0, 1, true), Observed(0, 2, true))
  {
    SecondSubmits(p.w);
    q := Then(p, WorkerTop(1, false, true, true, true));
    SecondPolls(q.w);
    q := Then(q, WorkerSave);
    SecondJobSucceeds(q.w);
    q := Then(q, JobMoves(2, Success));
    FirstWakes(q.w);
    q := Then(q, WorkerPoll(0));
    SecondWakes(q.w);
    q := Then(q, WorkerPoll(1));
  }

  lemma UntilAccepted(p: Path) returns (q: Path)
    requires Real(p) && p.w == Both(Configuring, [], Success, Observed(0, 1, true), Observed(0, 2, true))
    ensures Real(q) && q.w == Both(Accepted, [Rec(1), Rec(2)], Success, Done, Top)
  {
    FirstRecords(p.w);
    q := Then(p, WorkerRecord(0));
    SecondRecords(q.w);
    q := Then(q, WorkerRecord(1));
    FirstFinishes(q.w);
    q := Then(q, WorkerTop(0, false, true, true, true));
    IsAccepted(q.w);
    q := Then(q, Accept(0, true));
  }

  /** A reachable accepted run of two steps: its records both name step 0, which was
      submitted twice, and step 1 was never submitted. */
  lemma AcceptedWithoutItsSecondStep() returns (history: seq<Action>)
    ensures var w := After(history);
      && |w.runs| == 1 && w.runs[0].status == Accepted && |w.runs[0].Intent()| == 2
      && w.runs[0].steps == [Rec(1), Rec(2)] && w.runs[0].steps[0].index == 0 && w.runs[0].steps[1].index == 0
      && w.trace == [DeploySubmitted(0), VERIFIED, START, StepSubmitted(0, 0, PAYLOAD, 2, false, true), Reconciled(0, true),
                     VERIFIED, START, StepSubmitted(0, 0, PAYLOAD, 6, false, true)]
  {
    var p := Path([], Init());
    p := Saved(p);
    p := Prepared(p);
    p := DeploymentSubmitted(p);
    p := UntilVerified(p);
    p := UntilPolling(p);
    p := UntilRestarted(p);
    p := UntilBothWake(p);
    p := UntilAccepted(p);
    history := p.history;
  }
}
