/**
 The recovery service as an object: its stored records, the job manager it talks
 to and its threads are fields, and every locked section is a method that changes
 them step by step. Each method is proved equal to the transition of the same
 name, so an object that is driven by any sequence of actions is always in the
 state its history leads to, and what holds of every history holds of the object.
 Answers of the environment (approvals, drift checks, submissions) are parameters.
 */
module RecoveryServiceModel {
  import opened Prelude
  import opened RecoveryIntent
  import opened RecoverySteps
  import opened RecoveryOwnership
  import opened RecoverySubmissions
  import opened RecoveryEvidence
  import RecoveryGrounds

  ghost function Outcome(w: World, c: Option<Change>): World
    requires c.Some? ==> Fits(w, c.value)
  {
    if c.Some? then Apply(w, c.value) else w
  }

  /******* The groups of actions *******/

  predicate Settling(a: Action) {
    a.DeployBegin? || a.DeploySubmit? || a.DeployFinish? || a.Observe? || a.AttestHealth? || a.CollectBegin? || a.CollectEnd?
  }

  predicate Ordering(a: Action) {
    || a.StartBootstrap? || a.StartConfiguration? || a.LinkJob? || a.Accept? || a.Reconcile? || a.ClosePrepared? || a.Stop?
  }

  predicate Advancing(a: Action) {
    a.WorkerTop? || a.WorkerSave? || a.WorkerPoll? || a.WorkerRecord? || a.WorkerFail?
  }

  predicate Surrounding(a: Action) {
    !Settling(a) && !Ordering(a) && !Advancing(a) && !a.Crash? && !a.Prepare?
  }

  lemma SettlingStep(w: World, a: Action)
    requires Settling(a)
    ensures Step(w, a) == Outcome(w, Settle(w, a))
  {
  }

  lemma OrderingStep(w: World, a: Action)
    requires Ordering(a)
    ensures Step(w, a) == Outcome(w, Order(w, a))
    ensures !w.held.Free? ==> Step(w, a) == w
  {
  }

  lemma AdvancingStep(w: World, a: Action)
    requires Advancing(a)
    ensures Step(w, a) == Outcome(w, Advance(w, a))
  {
  }

  lemma SurroundingStep(w: World, a: Action)
    requires Surrounding(a)
    ensures Step(w, a) == Elsewhere(w, a)
    ensures !w.held.Free? && !a.JobMoves? && !a.JobDeleted? && !a.Tick? ==> Step(w, a) == w
  {
  }

  /** What every history guarantees: active runs own disjoint hardware, a run is deployed
      once, a password change is submitted once, stored evidence and records are what
      they claim to be, and whatever left the service had its ground. */
  ghost predicate Safe(w: World) {
    && Exclusive(w.runs)
    && (forall r: nat :: multiset(w.trace)[DeploySubmitted(r)] <= 1)
    && (forall r: nat, i: nat :: r < |w.runs| && i < |w.runs[r].Intent()| && ChangesPassword(w.runs[r].Intent()[i]) ==>
          Submissions(w.trace, r, i) <= 1)
    && (forall r: nat :: r < |w.runs| ==>
          Coherent(w.runs[r]) && StandingEvidence(w.trace, r) == Shown(w.runs[r]) && RunRefers(w, w.runs[r]))
    && RecoveryGrounds.AllGrounded(w.trace, w.runs)
  }

  lemma HistoriesAreSafe(history: seq<Action>)
    ensures Safe(After(history))
  {
    var w := After(history);
    OwnershipStaysSound(history);
    SubmissionsStaySound(history);
    EvidenceStaysSound(history);
    RecoveryGrounds.GroundsStaySound(history);
    SoundIsSafe(w);
  }

  lemma SoundIsSafe(w: World)
    requires Owned(w) && SubmissionsSound(w) && EvidenceSound(w) && RecoveryGrounds.GroundsSound(w)
    ensures Safe(w)
  {
    forall r: nat ensures multiset(w.trace)[DeploySubmitted(r)] <= 1 {
      DeployBound(w, r);
    }
    forall r: nat, i: nat | r < |w.runs| && i < |w.runs[r].Intent()| && ChangesPassword(w.runs[r].Intent()[i])
      ensures Submissions(w.trace, r, i) <= 1
    {
      assert SentSound(w, r);
    }
  }

  class RecoveryService {
    var datacenters: map<nat, Datacenter>
    var profiles: map<nat, Profile>
    var runs: seq<Run>
    var jobs: map<JobId, Job>
    var nextJob: JobId
    ghost var succeeded: map<JobId, Job>
    ghost var unsaved: set<JobId>
    var workers: seq<Worker>
    var collectors: set<Collector>
    var nextCollection: nat
    var held: Held
    var now: nat
    var trace: seq<Event>
    ghost var log: seq<Action>

    ghost function State(): World
      reads this
    {
      World(datacenters, profiles, runs, jobs, nextJob, succeeded, unsaved, workers, collectors, nextCollection, held, now, trace)
    }

    /** The object is in the state its history of actions leads to. */
    ghost predicate Valid()
      reads this
    {
      State() == After(log)
    }

    /** The service before its first request. */
    constructor Empty()
      ensures Valid() && log == []
    {
      datacenters, profiles, runs, jobs, nextJob, succeeded, unsaved := map[], map[], [], map[], 0, map[], {};
      workers, collectors, nextCollection, held, now, trace, log := [], {}, 0, Free, 0, [], [];
    }

    /** A new process over the stored records: uncertain runs need reconciliation. */
    constructor (earlier: RecoveryService)
      ensures State() == DoCrash(old(earlier.State()))
    {
      datacenters, profiles, jobs, nextJob := earlier.datacenters, earlier.profiles, earlier.jobs, earlier.nextJob;
      succeeded, unsaved, now, trace := earlier.succeeded, earlier.unsaved, earlier.now, earlier.trace;
      workers, collectors, nextCollection, held := earlier.workers, earlier.collectors, earlier.nextCollection, earlier.held;
      runs, log := earlier.runs, earlier.log;
      new;
      Restart();
    }

    /** Threads, collections and the lock are gone; the loop marks what is uncertain. */
    method Restart()
      modifies this
      ensures State() == DoCrash(old(State())) && log == old(log)
    {
      workers, collectors, held := [], {}, Free;
      ghost var before := runs;
      for r := 0 to |runs|
        invariant |runs| == |before|
        invariant forall k :: 0 <= k < |runs| ==> runs[k] == if k < r then RestartRun(before[k]) else before[k]
        invariant State() == old(State()).(runs := runs, workers := [], collectors := {}, held := Free) && log == old(log)
      {
        if runs[r].status in {Submitting, Bootstrapping, Configuring, Stopping} {
          runs := runs[r := runs[r].(status := NeedsReconciliation)];
        }
      }
      assert runs == DoCrash(old(State())).runs;
    }

    /******* Checks *******/

    method FindJob(id: Option<JobId>) returns (job: Option<Job>)
      ensures job == JobOf(State(), id)
    {
      job := None;
      if id.Some? && id.value in jobs {
        job := Some(jobs[id.value]);
      }
    }

    method Refreshed(run: Run) returns (settled: Run)
      ensures settled == Refresh(State(), run)
    {
      settled := run;
      if run.status != Deploying {
        return;
      }
      var job := FindJob(run.deploymentJob);
      if job.None? || job.value.status in {Failed, Cancelled, Interrupted} {
        settled := run.(status := NeedsReconciliation);
      } else if job.value.status == Success {
        var count := CountBootstrap(run.Intent());
        settled := run.(status := if |run.steps| < count then AwaitingBootstrap else AwaitingHealth);
      }
    }

    method BootstrapComplete(run: Run, through: nat) returns (ok: bool)
      requires through <= |run.Intent()|
      ensures ok == BootstrapRecorded(State(), run, through)
    {
      if |run.steps| < through {
        return false;
      }
      for k := 0 to through
        invariant BootstrapRecorded(State(), run, k)
      {
        var completed, step := run.steps[k], run.Intent()[k];
        var job := FindJob(Some(completed.job));
        if completed.index != k || completed.sha != step.sha || job.None? || job.value.status != Success
           || job.value.workflow != step.workflow
        {
          return false;
        }
      }
      return true;
    }

    /** Called for every Foundation submission: no other active run and no
        unfinished Foundation job may own the endpoint or a node. */
    method FoundationGuard(content: DeployIntent, owner: Option<nat>) returns (ok: bool)
      ensures ok == GuardAllows(State(), content, owner)
    {
      for r := 0 to |runs|
        invariant forall k :: 0 <= k < r && owner != Some(k) && Active(runs[k].status) ==>
          !Conflicts(content, runs[k].snapshot.body.endpoint, runs[k].snapshot.body.targets)
      {
        if owner != Some(r) && Active(runs[r].status) {
          if Conflicts(content, runs[r].snapshot.body.endpoint, runs[r].snapshot.body.targets) {
            return false;
          }
        }
      }
      var rest := jobs.Keys;
      while rest != {}
        invariant rest <= jobs.Keys
        invariant forall j :: j in jobs && j !in rest && jobs[j].workflow == FoundationDeploy
                              && jobs[j].status in {Queued, Running, Cancelling} ==>
          && jobs[j].payload.Deploy?
          && !Conflicts(content, jobs[j].payload.content.endpoint, Serials(jobs[j].payload.content))
      {
        var j :| j in rest;
        rest := rest - {j};
        if jobs[j].workflow == FoundationDeploy && jobs[j].status in {Queued, Running, Cancelling} {
          if !jobs[j].payload.Deploy? {
            return false;
          }
          if Conflicts(content, jobs[j].payload.content.endpoint, Serials(jobs[j].payload.content)) {
            return false;
          }
        }
      }
      return true;
    }

    method PasswordPending(run: Run) returns (pending: bool)
      ensures pending <==> exists i :: |run.steps| <= i < |run.Intent()| && ChangesPassword(run.Intent()[i])
    {
      var i := |run.steps|;
      while i < |run.Intent()|
        invariant forall k :: |run.steps| <= k < |run.Intent()| && k < i ==> !ChangesPassword(run.Intent()[k])
      {
        if ChangesPassword(run.Intent()[i]) {
          return true;
        }
        i := i + 1;
      }
      return false;
    }

    /** `submit`: the answer carries a job only when the submission was accepted;
        a rejected submission may have queued one all the same. */
    method Submit(r: nat, workflow: Workflow, payload: Payload, accepted: bool, created: bool) returns (answer: Option<JobId>)
      modifies this`jobs, this`nextJob, this`unsaved
      ensures answer == if accepted then Some(old(nextJob)) else None
      ensures nextJob == if accepted || created then old(nextJob) + 1 else old(nextJob)
      ensures jobs == if accepted || created then old(jobs)[old(nextJob) := Job(workflow, Queued, now, payload, Some(r))] else old(jobs)
      ensures unsaved == if accepted || created then old(unsaved) + {old(nextJob)} else old(unsaved)
    {
      answer := None;
      if accepted {
        answer := Some(nextJob);
      }
      if accepted || created {
        jobs := jobs[nextJob := Job(workflow, Queued, now, payload, Some(r))];
        unsaved := unsaved + {nextJob};
        nextJob := nextJob + 1;
      }
    }

    /******* Deployment *******/

    /** Intent is stored before the submission and the outcome after it: the three
        transitions of a deployment, in order, or none. */
    method Deploy(r: nat, confirmed: bool, accepted: bool, created: bool, linked: bool) returns (ok: bool)
      requires held.Free?
      modifies this
      ensures log == old(log)
      ensures ok == OnDeployBegin(old(State()), r, confirmed).Some?
      ensures !ok ==> State() == old(State())
      ensures ok ==>
        var w1 := Outcome(old(State()), OnDeployBegin(old(State()), r, confirmed));
        var w2 := Outcome(w1, OnDeploySubmit(w1, accepted, created, linked));
        State() == Outcome(w2, OnDeployFinish(w2))
      ensures ok ==> trace == old(trace) + [DeploySubmitted(r)] && held.Free?
    {
      ok := StoreDeployIntent(r, confirmed);
      if ok {
        SubmitDeployment(accepted, created, linked);
        StoreDeployOutcome();
      }
    }

    method StoreDeployIntent(r: nat, confirmed: bool) returns (ok: bool)
      requires held.Free?
      modifies this
      ensures log == old(log)
      ensures ok == OnDeployBegin(old(State()), r, confirmed).Some?
      ensures State() == Outcome(old(State()), OnDeployBegin(old(State()), r, confirmed))
      ensures if ok then held == DeployIntended(r) && r < |runs| && trace == old(trace) else State() == old(State())
    {
      if r >= |runs| || runs[r].status != Prepared || !confirmed {
        return false;
      }
      var run := runs[r];
      if run.datacenter !in datacenters || datacenters[run.datacenter].endpoint != run.snapshot.body.endpoint
         || !datacenters[run.datacenter].reviewed
      {
        return false;
      }
      ok := FoundationGuard(run.snapshot.body.content, Some(r));
      if !ok {
        return;
      }
      runs := runs[r := run.(status := Submitting)];
      held := DeployIntended(r);
      assert trace + [] == trace;
    }

    method SubmitDeployment(accepted: bool, created: bool, linked: bool)
      requires held.DeployIntended? && held.run < |runs|
      modifies this
      ensures log == old(log)
      ensures State() == Outcome(old(State()), OnDeploySubmit(old(State()), accepted, created, linked))
      ensures held.DeployAnswered? && held.run == old(held).run && held.run < |runs|
      ensures trace == old(trace) + [DeploySubmitted(held.run)]
    {
      var r := held.run;
      trace := trace + [DeploySubmitted(r)];
      var answer := Submit(r, FoundationDeploy, Payload.Deploy(runs[r].snapshot.body.content), accepted, created);
      held := DeployAnswered(r, answer, linked);
      assert runs[r := runs[r]] == runs;
    }

    method StoreDeployOutcome()
      requires held.DeployAnswered? && held.run < |runs|
      modifies this
      ensures log == old(log)
      ensures State() == Outcome(old(State()), OnDeployFinish(old(State())))
      ensures held.Free? && trace == old(trace)
    {
      var r := held.run;
      var run := runs[r];
      if held.job.None? {
        run := run.(status := NeedsReconciliation);
      } else {
        run := run.(deploymentJob := held.job);
        run := run.(status := if held.linked then Deploying else NeedsReconciliation);
        unsaved := unsaved - {held.job.value};
      }
      runs := runs[r := run];
      held := Free;
      assert trace + [] == trace;
    }

    method ObserveRun(r: nat)
      requires held.Free?
      modifies this`runs
      ensures State() == Outcome(old(State()), OnObserve(old(State()), r))
    {
      if r < |runs| {
        var run := Refreshed(runs[r]);
        runs := runs[r := run];
      }
    }

    /******* Health *******/

    method HealthReady(run: Run) returns (ok: bool)
      ensures ok == HealthCheckable(State(), run)
    {
      if run.status != AwaitingHealth && run.status != Ready {
        return false;
      }
      var count := CountBootstrap(run.Intent());
      ok := BootstrapComplete(run, count);
      var deployment := FindJob(run.deploymentJob);
      if deployment.None? || deployment.value.status != Success {
        ok := false;
      }
    }

    method AttestHealth(r: nat, confirmed: bool) returns (ok: bool)
      requires held.Free?
      modifies this
      ensures log == old(log)
      ensures ok == OnAttestHealth(old(State()), r, confirmed).Some?
      ensures State() == Outcome(old(State()), OnAttestHealth(old(State()), r, confirmed))
    {
      if r >= |runs| {
        return false;
      }
      var run := Refreshed(runs[r]);
      var ready := HealthReady(run);
      if !ready || !confirmed {
        return false;
      }
      run := run.(evidence := Some(Evidence(now, run.deploymentJob)));
      run := run.(status := Ready);
      runs := runs[r := run];
      trace := trace + [EvidenceRecorded(r, now, None)];
      return true;
    }

    /** The locked section before the unlocked PE reads. */
    method CollectBegin(r: nat) returns (collection: Option<nat>)
      requires held.Free?
      modifies this
      ensures log == old(log)
      ensures collection.Some? == OnCollectBegin(old(State()), r).Some?
      ensures State() == Outcome(old(State()), OnCollectBegin(old(State()), r))
    {
      if r >= |runs| {
        return None;
      }
      var run := Refreshed(runs[r]);
      var ready := HealthReady(run);
      if !ready {
        return None;
      }
      var id := MarkCollection(r, run);
      return Some(id);
    }

    /** Earlier evidence is dropped before the reads begin. */
    method MarkCollection(r: nat, run: Run) returns (id: nat)
      requires r < |runs|
      modifies this
      ensures log == old(log) && id == old(nextCollection)
      ensures State() == old(State()).(
        runs := old(runs)[r := run.(collection := Some(id), evidence := None, status := AwaitingHealth)],
        collectors := old(collectors) + {Collector(r, id)}, nextCollection := id + 1,
        trace := old(trace) + [CollectionStarted(r, id)])
    {
      id := nextCollection;
      nextCollection := nextCollection + 1;
      runs := runs[r := run.(collection := Some(id), evidence := None, status := AwaitingHealth)];
      collectors := collectors + {Collector(r, id)};
      trace := trace + [CollectionStarted(r, id)];
    }

    /** The locked section after them. */
    method CollectEnd(c: Collector, passed: bool) returns (ok: bool)
      requires held.Free? && c in collectors && c.run < |runs|
      modifies this
      ensures log == old(log)
      ensures ok == (old(runs)[c.run].collection == Some(c.collection) && old(runs)[c.run].status == AwaitingHealth)
      ensures State() == Outcome(old(State()), OnCollectEnd(old(State()), c, passed))
    {
      var run := runs[c.run];
      collectors := collectors - {c};
      if run.collection != Some(c.collection) || run.status != AwaitingHealth {
        return false;
      }
      if passed {
        run := run.(evidence := Some(Evidence(now, run.deploymentJob)));
        run := run.(status := Ready);
        trace := trace + [EvidenceRecorded(c.run, now, Some(c.collection))];
      }
      runs := runs[c.run := run];
      return true;
    }

    /******* Bootstrap and configuration *******/

    /** Individual approvals: distinct, only for the pending bootstrap steps, and
        present and verified for every step that needs one. */
    method ApprovalsComplete(run: Run, end: nat, barred: set<nat>, approvals: map<nat, nat>, checked: set<nat>)
      returns (ok: bool)
      requires end == BootstrapCount(run.Intent())
      ensures ok == BootstrapApproved(run, barred, approvals, checked)
    {
      var start := |run.steps|;
      if (exists i :: i in approvals && !(start <= i < end))
         || (exists i, j :: i in approvals && j in approvals && i != j && approvals[i] == approvals[j])
      {
        return false;
      }
      var index := start;
      while index < end
        invariant start <= index
        invariant forall i :: start <= i < index && i < end && (i in barred || i in approvals) ==> i in approvals && i in checked
      {
        if (index in barred || index in approvals) && (index !in approvals || index !in checked) {
          return false;
        }
        index := index + 1;
      }
      return true;
    }

    ghost predicate BootstrapStartable(run: Run, confirmed: bool, barred: set<nat>, approvals: map<nat, nat>, checked: set<nat>)
      reads this
    {
      && run.status in {AwaitingBootstrap, AwaitingHealth}
      && Succeeded(State(), run.deploymentJob)
      && |run.steps| < BootstrapCount(run.Intent())
      && (run.steps != [] ==> run.resumeApproved)
      && BootstrapRecorded(State(), run, |run.steps|)
      && confirmed
      && BootstrapApproved(run, barred, approvals, checked)
    }

    method BootstrapAllowed(run: Run, confirmed: bool, barred: set<nat>, approvals: map<nat, nat>, checked: set<nat>)
      returns (ok: bool)
      ensures ok == BootstrapStartable(run, confirmed, barred, approvals, checked)
    {
      var deployment := FindJob(run.deploymentJob);
      if run.status !in {AwaitingBootstrap, AwaitingHealth} || deployment.None? || deployment.value.status != Success {
        return false;
      }
      var end := CountBootstrap(run.Intent());
      var start := |run.steps|;
      if start >= end || (start > 0 && !run.resumeApproved) {
        return false;
      }
      var recorded := BootstrapComplete(run, start);
      if !recorded || !confirmed {
        return false;
      }
      ok := ApprovalsComplete(run, end, barred, approvals, checked);
    }

    method StartBootstrap(r: nat, confirmed: bool, barred: set<nat>, approvals: map<nat, nat>, checked: set<nat>)
      returns (ok: bool)
      requires held.Free?
      modifies this
      ensures log == old(log)
      ensures ok == OnStartBootstrap(old(State()), r, confirmed, barred, approvals, checked).Some?
      ensures State() == Outcome(old(State()), OnStartBootstrap(old(State()), r, confirmed, barred, approvals, checked))
    {
      if r >= |runs| {
        return false;
      }
      var run := Refreshed(runs[r]);
      ok := BootstrapAllowed(run, confirmed, barred, approvals, checked);
      if !ok {
        return;
      }
      var end := CountBootstrap(run.Intent());
      run := run.(approvals := approvals, resumeApproved := false, status := Bootstrapping);
      StartThread(r, run, Start(true, now, |run.steps|, end, barred, approvals, checked));
    }

    /** The thread's start is stored before the thread runs. */
    method StartThread(r: nat, run: Run, start: Start)
      requires r < |runs|
      modifies this
      ensures log == old(log)
      ensures State() == old(State()).(
        runs := old(runs)[r := run], workers := old(workers) + [Worker(r, start.bootstrap, |old(trace)|, Top)],
        trace := old(trace) + [ThreadStarted(r, start)])
    {
      runs := runs[r := run];
      workers := workers + [Worker(r, start.bootstrap, |trace|, Top)];
      trace := trace + [ThreadStarted(r, start)];
    }

    method StartConfiguration(r: nat, confirmed: bool, barred: set<nat>) returns (ok: bool)
      requires held.Free?
      modifies this
      ensures log == old(log)
      ensures ok == OnStartConfiguration(old(State()), r, confirmed, barred).Some?
      ensures State() == Outcome(old(State()), OnStartConfiguration(old(State()), r, confirmed, barred))
    {
      if r >= |runs| || runs[r].status != Ready {
        return false;
      }
      var run := runs[r];
      var count := CountBootstrap(run.Intent());
      var recorded := BootstrapComplete(run, count);
      if !recorded || run.evidence.None? || now - run.evidence.value.at > EVIDENCE_WINDOW {
        return false;
      }
      var index := |run.steps|;
      while index < |run.Intent()|
        invariant |run.steps| <= index
        invariant forall i :: |run.steps| <= i < index && i < |run.Intent()| ==> i !in barred
      {
        if index in barred {
          return false;
        }
        index := index + 1;
      }
      if !confirmed {
        return false;
      }
      run := run.(status := Configuring);
      StartThread(r, run, Start(false, now, |run.steps|, |run.Intent()|, barred, map[], {}));
      return true;
    }

    /** One pass of the `_configure` loop up to its wait: the thread leaves, fails,
        or submits the next step and stores the job it got. */
    method ConfigureStep(k: nat, restricted: bool, verified: bool, accepted: bool, created: bool)
      requires held.Free? && k < |workers| && workers[k].pc == Top && workers[k].run < |runs|
      modifies this
      ensures log == old(log)
      ensures var w1 := Outcome(old(State()), OnWorkerTop(old(State()), k, restricted, verified, accepted, created));
        State() == if w1.held.Free? then w1 else Outcome(w1, OnWorkerSave(w1))
      ensures held.Free?
    {
      SubmitStep(k, restricted, verified, accepted, created);
      if held.StepAnswered? {
        StoreStepJob();
      }
    }

    method SubmitStep(k: nat, restricted: bool, verified: bool, accepted: bool, created: bool)
      requires held.Free? && k < |workers| && workers[k].pc == Top && workers[k].run < |runs|
      modifies this
      ensures log == old(log)
      ensures State() == Outcome(old(State()), OnWorkerTop(old(State()), k, restricted, verified, accepted, created))
      ensures held.Free? || (held.StepAnswered? && held.worker < |workers| && workers[held.worker].run < |runs|)
    {
      var worker := workers[k];
      var r := worker.run;
      var run := runs[r];
      assert trace + [] == trace && runs[r := run] == runs;
      if run.status != worker.ActiveStatus() {
        workers := workers[k := worker.(pc := Done)];
        return;
      }
      var end := |run.Intent()|;
      if worker.bootstrap {
        end := CountBootstrap(run.Intent());
      }
      if |run.steps| == end {
        runs := runs[r := run.(status := if worker.bootstrap then AwaitingHealth else AwaitingAcceptance)];
        workers := workers[k := worker.(pc := Done)];
        return;
      }
      SubmitPending(k, restricted, verified, accepted, created);
    }

    /** The step after the recorded ones: its checks, then `submit`. */
    method SubmitPending(k: nat, restricted: bool, verified: bool, accepted: bool, created: bool)
      requires held.Free? && k < |workers| && workers[k].pc == Top && workers[k].run < |runs|
      requires runs[workers[k].run].status == workers[k].ActiveStatus()
      requires |runs[workers[k].run].steps| != End(workers[k], runs[workers[k].run])
      modifies this
      ensures log == old(log)
      ensures State() == Outcome(old(State()), OnWorkerTop(old(State()), k, restricted, verified, accepted, created))
      ensures held.Free? || (held.StepAnswered? && held.worker < |workers| && workers[held.worker].run < |runs|)
    {
      var worker, run := workers[k], runs[workers[k].run];
      if StepRefused(worker, run, restricted, verified) {
        workers := workers[k := worker.(pc := Failing)];
        assert runs[worker.run := run] == runs && trace + [] == trace;
      } else {
        SubmitGranted(k, restricted, verified, accepted, created);
      }
    }

    method SubmitGranted(k: nat, restricted: bool, verified: bool, accepted: bool, created: bool)
      requires held.Free? && k < |workers| && workers[k].pc == Top && workers[k].run < |runs|
      requires runs[workers[k].run].status == workers[k].ActiveStatus()
      requires |runs[workers[k].run].steps| != End(workers[k], runs[workers[k].run])
      requires !StepRefused(workers[k], runs[workers[k].run], restricted, verified)
      modifies this
      ensures log == old(log)
      ensures State() == Outcome(old(State()), OnWorkerTop(old(State()), k, restricted, verified, accepted, created))
      ensures held.StepAnswered? && held.worker < |workers| && workers[held.worker].run < |runs|
    {
      var worker, run := workers[k], runs[workers[k].run];
      var index := |run.steps|;
      var step := run.Intent()[index];
      assert runs[worker.run := run] == runs;
      var payload := Configure(step.config, ApprovalFor(worker, run, index), false);
      trace := trace + [StepSubmitted(worker.run, index, payload, worker.born, restricted, verified)];
      var answer := Submit(worker.run, step.workflow, payload, accepted, created);
      workers := workers[k := worker.(pc := Answered)];
      held := StepAnswered(k, index, answer);
    }

    method StoreStepJob()
      requires held.StepAnswered? && held.worker < |workers| && workers[held.worker].run < |runs|
      modifies this
      ensures log == old(log)
      ensures State() == Outcome(old(State()), OnWorkerSave(old(State())))
      ensures held.Free?
    {
      var k := held.worker;
      var r := workers[k].run;
      assert trace + [] == trace && runs[r := runs[r]] == runs;
      if held.job.None? {
        workers := workers[k := workers[k].(pc := Failing)];
      } else {
        runs := runs[r := runs[r].(currentJob := held.job)];
        workers := workers[k := workers[k].(pc := Polling(held.index, held.job.value))];
        unsaved := unsaved - {held.job.value};
      }
      held := Free;
    }

    method Poll(k: nat)
      requires held.Free? && k < |workers| && workers[k].pc.Polling? && workers[k].run < |runs|
      modifies this
      ensures log == old(log)
      ensures State() == Outcome(old(State()), OnWorkerPoll(old(State()), k))
    {
      var pc := workers[k].pc;
      var job := FindJob(Some(pc.job));
      if job.None? || job.value.status in TERMINAL_JOBS {
        workers := workers[k := workers[k].(pc := Observed(pc.index, pc.job, job.Some? && job.value.status == Success))];
      }
      assert runs[workers[k].run := runs[workers[k].run]] == runs;
      assert trace + [] == trace;
    }

    method Record(k: nat)
      requires held.Free? && k < |workers| && workers[k].pc.Observed? && workers[k].run < |runs|
      modifies this
      ensures log == old(log)
      ensures State() == Outcome(old(State()), OnWorkerRecord(old(State()), k))
    {
      var worker := workers[k];
      var run := runs[worker.run];
      if run.status != worker.ActiveStatus() {
        workers := workers[k := worker.(pc := Done)];
      } else if !worker.pc.success || worker.pc.index >= |run.Intent()| {
        workers := workers[k := worker.(pc := Failing)];
      } else {
        var step := run.Intent()[worker.pc.index];
        run := run.(steps := run.steps + [Recorded(worker.pc.index, step.workflow, worker.pc.job, step.sha)]);
        runs := runs[worker.run := run];
        workers := workers[k := worker.(pc := Top)];
      }
      assert trace + [] == trace;
    }

    method Fail(k: nat)
      requires held.Free? && k < |workers| && workers[k].pc == Failing && workers[k].run < |runs|
      modifies this
      ensures log == old(log)
      ensures State() == Outcome(old(State()), OnWorkerFail(old(State()), k))
    {
      var worker := workers[k];
      var run := runs[worker.run];
      if run.status in {Configuring, Bootstrapping} {
        run := run.(status := NeedsReconciliation);
        runs := runs[worker.run := run];
      }
      workers := workers[k := worker.(pc := Done)];
      assert trace + [] == trace;
    }

    method LinkJob(r: nat, j: JobId, restricted: bool) returns (ok: bool)
      requires held.Free?
      modifies this`runs, this`trace
      ensures ok == OnLinkJob(old(State()), r, j, restricted).Some?
      ensures State() == Outcome(old(State()), OnLinkJob(old(State()), r, j, restricted))
    {
      if r >= |runs| || runs[r].status != Ready {
        return false;
      }
      var run := runs[r];
      var index := |run.steps|;
      if index >= |run.Intent()| || exists k :: 0 <= k < |run.steps| && run.steps[k].job == j {
        return false;
      }
      var step := run.Intent()[index];
      var job := FindJob(Some(j));
      if job.None? || job.value.status != Success || job.value.workflow != step.workflow {
        return false;
      }
      var payload := job.value.payload;
      if !payload.Configure? || payload.dryRun || payload.config != step.config || (restricted && payload.approval.None?) {
        return false;
      }
      if run.evidence.None? || !(run.evidence.value.at <= job.value.created <= run.evidence.value.at + EVIDENCE_WINDOW) {
        return false;
      }
      run := run.(steps := run.steps + [Recorded(index, step.workflow, j, step.sha)]);
      if |run.steps| == |run.Intent()| {
        run := run.(status := AwaitingAcceptance);
      }
      runs := runs[r := run];
      trace := trace + [JobLinked(r, index, j, job.value.created, payload, restricted)];
      return true;
    }

    /******* Acceptance, reconciliation, stop *******/

    method Accept(r: nat, confirmed: bool) returns (ok: bool)
      requires held.Free?
      modifies this`runs
      ensures ok == OnAccept(old(State()), r, confirmed).Some?
      ensures State() == Outcome(old(State()), OnAccept(old(State()), r, confirmed))
    {
      if r >= |runs| || runs[r].status != AwaitingAcceptance {
        return false;
      }
      var run := runs[r];
      var deployment := FindJob(run.deploymentJob);
      if |run.steps| != |run.Intent()| || deployment.None? || deployment.value.status != Success {
        return false;
      }
      for k := 0 to |run.steps|
        invariant State() == old(State())
        invariant forall i :: 0 <= i < k ==> Succeeded(State(), Some(run.steps[i].job))
      {
        var job := FindJob(Some(run.steps[k].job));
        if job.None? || job.value.status != Success {
          return false;
        }
      }
      if !confirmed {
        return false;
      }
      runs := runs[r := run.(status := Accepted)];
      return true;
    }

    method Reconcile(r: nat, confirmed: bool, resume: bool) returns (ok: bool)
      requires held.Free?
      modifies this
      ensures log == old(log)
      ensures ok == OnReconcile(old(State()), r, confirmed, resume).Some?
      ensures State() == Outcome(old(State()), OnReconcile(old(State()), r, confirmed, resume))
    {
      if r >= |runs| || !Active(runs[r].status) {
        return false;
      }
      var run := runs[r];
      var deployment := FindJob(run.deploymentJob);
      var current := FindJob(run.currentJob);
      if (deployment.Some? && deployment.value.status !in TERMINAL_JOBS)
         || (current.Some? && current.value.status !in TERMINAL_JOBS) || !confirmed
      {
        return false;
      }
      if resume {
        var pending := PasswordPending(run);
        if deployment.None? || deployment.value.status != Success || pending {
          return false;
        }
        var count := CountBootstrap(run.Intent());
        if |run.steps| < count {
          run := run.(status := AwaitingBootstrap);
          run := run.(resumeApproved := true);
        } else {
          run := run.(status := AwaitingHealth);
        }
        run := run.(evidence := None);
      } else {
        run := run.(status := ClosedReconciled);
      }
      runs := runs[r := run];
      trace := trace + [Reconciled(r, resume)];
      return true;
    }

    method ClosePrepared(r: nat, confirmed: bool) returns (ok: bool)
      requires held.Free?
      modifies this`runs
      ensures ok == OnClosePrepared(old(State()), r, confirmed).Some?
      ensures State() == Outcome(old(State()), OnClosePrepared(old(State()), r, confirmed))
    {
      if r >= |runs| || runs[r].status != Prepared || runs[r].deploymentJob.Some? || runs[r].currentJob.Some?
         || runs[r].steps != [] || !confirmed
      {
        return false;
      }
      runs := runs[r := runs[r].(status := ClosedReconciled)];
      return true;
    }

    /** `cancelled` is false when the process dies before the jobs are cancelled. */
    method Stop(r: nat, cancelled: bool) returns (ok: bool)
      requires held.Free?
      modifies this
      ensures log == old(log)
      ensures ok == OnStop(old(State()), r, cancelled).Some?
      ensures State() == Outcome(old(State()), OnStop(old(State()), r, cancelled))
    {
      if r >= |runs| || !Active(runs[r].status) {
        return false;
      }
      runs := runs[r := runs[r].(status := NeedsReconciliation)];
      if cancelled {
        Cancel(runs[r].deploymentJob);
        Cancel(runs[r].currentJob);
      }
      assert trace + [] == trace;
      return true;
    }

    method Cancel(id: Option<JobId>)
      modifies this`jobs
      ensures jobs == CancelJob(old(jobs), id)
    {
      var job := FindJob(id);
      if job.Some? && job.value.status !in TERMINAL_JOBS {
        var status := if job.value.status == Queued then Cancelled else Cancelling;
        jobs := jobs[id.value := job.value.(status := status)];
      }
    }

    method Prepare(id: nat, body: Body, undrifted: bool) returns (ok: bool)
      requires held.Free?
      modifies this`runs
      ensures State() == DoPrepare(old(State()), id, body, undrifted)
      ensures ok <==> |runs| == |old(runs)| + 1
    {
      if id !in profiles || profiles[id].archived || profiles[id].revisions == [] {
        return false;
      }
      var profile := profiles[id];
      var revision := LastRevision(profile);
      if !revision.reviewed || revision.body != body || profile.datacenter !in datacenters {
        return false;
      }
      var dc := datacenters[profile.datacenter];
      if !dc.reviewed || dc.endpoint != body.endpoint || !undrifted {
        return false;
      }
      runs := runs + [Run(id, profile.datacenter, revision, Prepared, [], None, None, None, None, false, map[])];
      return true;
    }

    /******* Datacenters, profiles and jobs outside a run *******/

    method SaveDatacenter(id: nat, create: bool, endpoint: string, reviewed: bool)
      requires held.Free?
      modifies this`datacenters
      ensures State() == DoSaveDatacenter(old(State()), id, create, endpoint, reviewed)
    {
      if create != (id !in datacenters) {
        return;
      }
      for r := 0 to |runs|
        invariant forall k :: 0 <= k < r ==> !(runs[k].datacenter == id && Active(runs[k].status))
      {
        if runs[r].datacenter == id && Active(runs[r].status) {
          return;
        }
      }
      datacenters := datacenters[id := Datacenter(endpoint, reviewed)];
    }

    /** An open run of a profile keeps it from being changed. */
    method OpenRun(id: nat) returns (open: bool)
      ensures open == Blocked(runs, id)
    {
      for r := 0 to |runs|
        invariant forall k :: 0 <= k < r ==> !(runs[k].profile == id && !Closed(runs[k].status))
      {
        if runs[r].profile == id && !Closed(runs[r].status) {
          return true;
        }
      }
      return false;
    }

    method SaveProfile(id: nat, create: bool, current: bool, dc: nat, content: DeployIntent, valid: bool, pipeline: nat,
                       files: seq<(Workflow, string, PostConfig)>)
      requires held.Free?
      modifies this`profiles
      ensures State() == DoSaveProfile(old(State()), id, create, current, dc, content, valid, pipeline, files)
    {
      if create != (id !in profiles) {
        return;
      }
      if !create {
        var open := OpenRun(id);
        if !current || profiles[id].archived || open {
          return;
        }
      }
      if dc !in datacenters || !valid || |content.clusters| != 1 || content.endpoint != datacenters[dc].endpoint
         || !content.clusters[0].formation || !(1 <= |files| <= 30)
      {
        return;
      }
      var steps: seq<StepIntent> := [];
      for k := 0 to |files|
        invariant |steps| == k
        invariant forall i :: 0 <= i < k ==> files[i].0 in POST_ACTIONS && TargetsOnly(files[i].2, content.clusters[0])
        invariant forall i :: 0 <= i < k ==> steps[i] == StepIntent(files[i].0, files[i].1, files[i].2, Digest(files[i].2))
      {
        if files[k].0 !in POST_ACTIONS || !TargetsOnly(files[k].2, content.clusters[0]) {
          return;
        }
        steps := steps + [StepIntent(files[k].0, files[k].1, files[k].2, Digest(files[k].2))];
      }
      var cluster := content.clusters[0];
      var body := Body(content, datacenters[dc].endpoint, pipeline, steps, cluster.name, cluster.vip,
                       (set s | s in cluster.serials), now);
      assert body == Capture(State(), dc, content, pipeline, files);
      var earlier := if create then [] else profiles[id].revisions;
      profiles := profiles[id := Profile(dc, earlier + [Revision(body, |earlier| + 1, false)], false)];
    }

    method Approve(id: nat, body: Body)
      requires held.Free?
      modifies this`profiles
      ensures State() == DoApprove(old(State()), id, body)
    {
      if id !in profiles || profiles[id].archived || profiles[id].revisions == [] || LastRevision(profiles[id]).body != body {
        return;
      }
      var profile := profiles[id];
      var last := |profile.revisions| - 1;
      profile := profile.(revisions := profile.revisions[last := profile.revisions[last].(reviewed := true)]);
      profiles := profiles[id := profile];
    }

    method SetArchived(id: nat, confirmed: bool, archived: bool)
      requires held.Free?
      modifies this`profiles
      ensures State() == if archived then DoArchive(old(State()), id, confirmed) else DoRestore(old(State()), id, confirmed)
    {
      if id !in profiles || !confirmed || profiles[id].archived == archived {
        return;
      }
      var open := OpenRun(id);
      if !open {
        profiles := profiles[id := profiles[id].(archived := archived)];
      }
    }

    method Delete(id: nat, confirmed: bool, unreferenced: bool)
      requires held.Free?
      modifies this`profiles
      ensures State() == DoDelete(old(State()), id, confirmed, unreferenced)
    {
      if id !in profiles || !confirmed || !unreferenced {
        return;
      }
      for r := 0 to |runs|
        invariant forall k :: 0 <= k < r ==> runs[k].profile != id
      {
        if runs[r].profile == id {
          return;
        }
      }
      profiles := profiles - {id};
    }

    /** A job that somebody submits directly; a deployment passes the guard first. */
    method OrdinaryJob(workflow: Workflow, payload: Payload)
      requires held.Free?
      modifies this`jobs, this`nextJob
      ensures State() == DoOrdinaryJob(old(State()), workflow, payload)
    {
      if workflow == FoundationDeploy {
        if !payload.Deploy? {
          return;
        }
        var ok := FoundationGuard(payload.content, None);
        if !ok {
          return;
        }
      }
      jobs := jobs[nextJob := Job(workflow, Queued, now, payload, None)];
      nextJob := nextJob + 1;
    }

    method JobMoves(j: JobId, status: JobStatus)
      modifies this`jobs, this`succeeded
      ensures State() == DoJobMoves(old(State()), j, status)
    {
      if j in jobs && jobs[j].status !in TERMINAL_JOBS {
        jobs := jobs[j := jobs[j].(status := status)];
        if status == Success {
          succeeded := succeeded[j := jobs[j]];
        }
      }
    }

    method JobDeleted(j: JobId)
      modifies this`jobs
      ensures State() == DoJobDeleted(old(State()), j)
    {
      if j in jobs && jobs[j].status in TERMINAL_JOBS {
        jobs := jobs - {j};
      }
    }

    /******* Any request, thread turn, crash or move of the environment *******/

    method PerformDeploy(a: Action)
      requires a.DeployBegin? || a.DeploySubmit? || a.DeployFinish?
      modifies this
      ensures log == old(log) && State() == Outcome(old(State()), Settle(old(State()), a))
    {
      match a
      case DeployBegin(r, confirmed) =>
        if held.Free? {
          var _ := StoreDeployIntent(r, confirmed);
        }
      case DeploySubmit(accepted, created, linked) =>
        if held.DeployIntended? && held.run < |runs| {
          SubmitDeployment(accepted, created, linked);
        }
      case DeployFinish =>
        if held.DeployAnswered? && held.run < |runs| {
          StoreDeployOutcome();
        }
    }

    method PerformHealth(a: Action)
      requires a.Observe? || a.AttestHealth? || a.CollectBegin? || a.CollectEnd?
      modifies this
      ensures log == old(log) && State() == Outcome(old(State()), Settle(old(State()), a))
    {
      if !held.Free? {
        return;
      }
      match a
      case Observe(r) =>
        ObserveRun(r);
      case AttestHealth(r, confirmed) =>
        var _ := AttestHealth(r, confirmed);
      case CollectBegin(r) =>
        var _ := CollectBegin(r);
      case CollectEnd(c, passed) =>
        if c in collectors && c.run < |runs| {
          var _ := CollectEnd(c, passed);
        }
    }

    method PerformSettle(a: Action)
      requires Settling(a)
      modifies this
      ensures log == old(log) && State() == Outcome(old(State()), Settle(old(State()), a))
    {
      if a.DeployBegin? || a.DeploySubmit? || a.DeployFinish? {
        PerformDeploy(a);
      } else {
        PerformHealth(a);
      }
    }

    method PerformStart(a: Action)
      requires (a.StartBootstrap? || a.StartConfiguration?) && held.Free?
      modifies this
      ensures log == old(log) && State() == Outcome(old(State()), Order(old(State()), a))
    {
      match a
      case StartBootstrap(r, confirmed, barred, approvals, checked) =>
        var _ := StartBootstrap(r, confirmed, barred, approvals, checked);
      case StartConfiguration(r, confirmed, barred) =>
        var _ := StartConfiguration(r, confirmed, barred);
    }

    method PerformLink(a: Action)
      requires a.LinkJob? && held.Free?
      modifies this
      ensures log == old(log) && State() == Outcome(old(State()), Order(old(State()), a))
    {
      var _ := LinkJob(a.run, a.job, a.restricted);
    }

    method PerformClose(a: Action)
      requires (a.ClosePrepared? || a.Stop?) && held.Free?
      modifies this
      ensures log == old(log) && State() == Outcome(old(State()), Order(old(State()), a))
    {
      match a
      case ClosePrepared(r, confirmed) =>
        var _ := ClosePrepared(r, confirmed);
      case Stop(r, cancelled) =>
        var _ := Stop(r, cancelled);
    }

    method PerformReconcile(a: Action)
      requires a.Reconcile? && held.Free?
      modifies this
      ensures log == old(log) && State() == Outcome(old(State()), Order(old(State()), a))
    {
      var _ := Reconcile(a.run, a.confirmed, a.resume);
    }

    method PerformAccept(a: Action)
      requires a.Accept? && held.Free?
      modifies this
      ensures log == old(log) && State() == Outcome(old(State()), Order(old(State()), a))
    {
      var _ := Accept(a.run, a.confirmed);
    }

    method PerformSubmit(a: Action)
      requires a.WorkerTop? || a.WorkerSave?
      modifies this
      ensures log == old(log) && State() == Outcome(old(State()), Advance(old(State()), a))
    {
      match a
      case WorkerTop(k, restricted, verified, accepted, created) =>
        if held.Free? && k < |workers| && workers[k].pc == Top && workers[k].run < |runs| {
          SubmitStep(k, restricted, verified, accepted, created);
        }
      case WorkerSave =>
        if held.StepAnswered? && held.worker < |workers| && workers[held.worker].run < |runs| {
          StoreStepJob();
        }
    }

    method PerformWake(a: Action)
      requires a.WorkerPoll? || a.WorkerFail?
      modifies this
      ensures log == old(log) && State() == Outcome(old(State()), Advance(old(State()), a))
    {
      var k := a.worker;
      if !held.Free? || k >= |workers| || workers[k].run >= |runs| {
        return;
      }
      if a.WorkerPoll? {
        if workers[k].pc.Polling? {
          Poll(k);
        }
      } else if workers[k].pc == Failing {
        Fail(k);
      }
    }

    method PerformRecord(a: Action)
      requires a.WorkerRecord?
      modifies this
      ensures log == old(log) && State() == Outcome(old(State()), Advance(old(State()), a))
    {
      var k := a.worker;
      if held.Free? && k < |workers| && workers[k].pc.Observed? && workers[k].run < |runs| {
        Record(k);
      }
    }

    method PerformElsewhere(a: Action)
      requires Surrounding(a) && (held.Free? || a.JobMoves? || a.JobDeleted? || a.Tick?)
      modifies this
      ensures log == old(log) && State() == Elsewhere(old(State()), a)
    {
      match a
      case SaveDatacenter(id, create, endpoint, reviewed) => SaveDatacenter(id, create, endpoint, reviewed);
      case SaveProfile(id, create, current, dc, content, valid, pipeline, files) =>
        SaveProfile(id, create, current, dc, content, valid, pipeline, files);
      case Approve(id, body) => Approve(id, body);
      case Archive(id, confirmed) => SetArchived(id, confirmed, true);
      case Restore(id, confirmed) => SetArchived(id, confirmed, false);
      case Delete(id, confirmed, unreferenced) => Delete(id, confirmed, unreferenced);
      case OrdinaryJob(workflow, payload) => OrdinaryJob(workflow, payload);
      case JobMoves(j, status) => JobMoves(j, status);
      case JobDeleted(j) => JobDeleted(j);
      case Tick(elapsed) => now := now + elapsed;
    }

    method PerformOrder(a: Action)
      requires Ordering(a) && held.Free?
      modifies this
      ensures log == old(log) && State() == Outcome(old(State()), Order(old(State()), a))
    {
      if a.StartBootstrap? || a.StartConfiguration? {
        PerformStart(a);
      } else if a.LinkJob? {
        PerformLink(a);
      } else if a.Accept? {
        PerformAccept(a);
      } else if a.Reconcile? {
        PerformReconcile(a);
      } else {
        PerformClose(a);
      }
    }

    method PerformAdvance(a: Action)
      requires Advancing(a)
      modifies this
      ensures log == old(log) && State() == Outcome(old(State()), Advance(old(State()), a))
    {
      if a.WorkerTop? || a.WorkerSave? {
        PerformSubmit(a);
      } else if a.WorkerRecord? {
        PerformRecord(a);
      } else {
        PerformWake(a);
      }
    }

    /** One action changes the object as the transition system has it. */
    method Perform(a: Action)
      modifies this
      ensures log == old(log) && State() == Step(old(State()), a)
    {
      if a.Crash? {
        Restart();
      } else if a.Prepare? {
        if held.Free? {
          var _ := Prepare(a.id, a.body, a.undrifted);
        }
      } else if Settling(a) {
        SettlingStep(State(), a);
        PerformSettle(a);
      } else if Ordering(a) {
        OrderingStep(State(), a);
        if held.Free? {
          PerformOrder(a);
        }
      } else if Advancing(a) {
        AdvancingStep(State(), a);
        PerformAdvance(a);
      } else {
        SurroundingStep(State(), a);
        if held.Free? || a.JobMoves? || a.JobDeleted? || a.Tick? {
          PerformElsewhere(a);
        }
      }
    }

    method Take(a: Action)
      requires Valid()
      modifies this
      ensures Valid() && log == old(log) + [a]
    {
      Perform(a);
      log := log + [a];
      assert log[..|log| - 1] == old(log);
    }

    /** The service, driven by any sequence of requests, thread turns, crashes and moves
        of the environment, is safe at the end of it. */
    method Serve(actions: seq<Action>)
      requires Valid()
      modifies this
      ensures Valid() && log == old(log) + actions && Safe(State())
    {
      for k := 0 to |actions|
        invariant Valid() && log == old(log) + actions[..k]
      {
        Take(actions[k]);
      }
      HistoriesAreSafe(log);
    }
  }
}
