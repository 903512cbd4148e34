/**
 What holds of every history in which no run ever has two live threads: recorded
 steps are an in-order prefix of the snapshot, an accepted run ran all of it, and
 nothing past the bootstrap prefix is submitted without fresh health evidence.
 A concrete history with two threads shows that the hypothesis is needed; without
 it the records are in order exactly if every recording found its step to be next.
 */
module RecoveryPrefix {
  import opened Prelude
  import opened RecoveryIntent
  import opened RecoverySteps
  import opened RecoveryOwnership
  import opened RecoverySubmissions
  import opened RecoveryEvidence

  /******* The hypothesis *******/

  ghost predicate OneThread(w: World) {
    forall r: nat, j: nat, k: nat :: Live(w, j, r) && Live(w, k, r) ==> j == k
  }

  /** At no moment of the history has a run two live threads. */
  ghost predicate AlwaysOneThread(history: seq<Action>) {
    OneThread(After(history)) && (history == [] || AlwaysOneThread(history[..|history| - 1]))
  }

  /******* The invariant *******/

  ghost predicate Recordable(run: Run, k: nat)
    requires k < |run.steps|
  {
    && k < |run.Intent()|
    && run.steps[k].index == k
    && run.steps[k].workflow == run.Intent()[k].workflow
    && run.steps[k].sha == run.Intent()[k].sha
  }

  /** The recorded steps are a prefix of the snapshot, each with a job of its own. */
  ghost predicate InOrder(run: Run) {
    && (forall k :: 0 <= k < |run.steps| ==> Recordable(run, k))
    && (forall i, j :: 0 <= i < j < |run.steps| ==> run.steps[i].job != run.steps[j].job)
  }

  ghost predicate Fresh(run: Run, job: JobId) {
    forall k :: 0 <= k < |run.steps| ==> run.steps[k].job != job
  }

  /** How far a run in a given status has come. */
  ghost predicate Placed(run: Run) {
    var count := BootstrapCount(run.Intent());
    && (run.status.Bootstrapping? ==> |run.steps| <= count)
    && (run.status.AwaitingHealth? || PastGate(run.status) ==> |run.steps| >= count)
    && (run.status.AwaitingAcceptance? || run.status.Accepted? ==> |run.steps| == |run.Intent()|)
  }

  /** A thread whose run is in its status works on the next step. */
  ghost predicate Aimed(w: World, k: nat) {
    k < |w.workers| && w.workers[k].run < |w.runs|
    && w.runs[w.workers[k].run].status == w.workers[k].ActiveStatus() ==>
      var worker, run := w.workers[k], w.runs[w.workers[k].run];
      match worker.pc
      case Answered => |run.steps| < End(worker, run)
      case Polling(index, job) => index == |run.steps| < End(worker, run) && Fresh(run, job)
      case Observed(index, job, _) => index == |run.steps| < End(worker, run) && Fresh(run, job)
      case _ => true
  }

  ghost predicate HeldFresh(w: World) {
    w.held.StepAnswered? && w.held.job.Some? && w.held.worker < |w.workers| && w.workers[w.held.worker].run < |w.runs| ==>
      Fresh(w.runs[w.workers[w.held.worker].run], w.held.job.value)
  }

  ghost predicate InOrderAll(w: World) {
    && (forall r :: 0 <= r < |w.runs| ==> InOrder(w.runs[r]) && Placed(w.runs[r]))
    && (forall k: nat :: Aimed(w, k))
    && HeldFresh(w)
  }

  lemma DeployPlaced(w: World, a: Action)
    requires HeldSound(w) && Settle(w, a).Some? && (a.DeployBegin? || a.DeploySubmit? || a.DeployFinish?)
    requires Placed(w.runs[Settle(w, a).value.r])
    ensures Placed(Settle(w, a).value.run)
  {
  }

  lemma HealthPlaced(w: World, a: Action)
    requires Settle(w, a).Some? && !a.DeployBegin? && !a.DeploySubmit? && !a.DeployFinish?
    requires Placed(w.runs[Settle(w, a).value.r])
    ensures Placed(Settle(w, a).value.run)
  {
  }

  lemma SettlePlaced(w: World, a: Action)
    requires HeldSound(w) && Settle(w, a).Some? && Placed(w.runs[Settle(w, a).value.r])
    ensures Placed(Settle(w, a).value.run)
  {
    if a.DeployBegin? || a.DeploySubmit? || a.DeployFinish? {
      DeployPlaced(w, a);
    } else {
      HealthPlaced(w, a);
    }
  }

  lemma OrderPlaced(w: World, a: Action)
    requires HeldSound(w) && Order(w, a).Some? && Placed(w.runs[Order(w, a).value.r])
    ensures Placed(Order(w, a).value.run)
  {
  }

  lemma AdvancePlaced(w: World, c: Change)
    requires Fits(w, c) && Orderly(w, c) && Placed(w.runs[c.r])
    requires Waited(w, c) || Finished(w, c) || Submitted(w, c) || RecordedStep(w, c)
    requires c.thread.Moves? && Aimed(w, c.thread.worker)
    ensures Placed(c.run)
  {
    assert c.run.Intent() == w.runs[c.r].Intent();
  }

  lemma ChangePlaced(w: World, a: Action)
    requires HeldSound(w) && InOrderAll(w) && Decide(w, a).Some?
    ensures Placed(Decide(w, a).value.run)
  {
    DecideIsOrderly(w, a);
    if Settle(w, a).Some? {
      SettlePlaced(w, a);
    } else if Order(w, a).Some? {
      OrderPlaced(w, a);
    } else {
      AdvanceShape(w, a);
      AdvancePlaced(w, Decide(w, a).value);
    }
  }

  lemma ChangeInOrder(w: World, c: Change)
    requires Fits(w, c) && Shaped(w, c) && Orderly(w, c) && InOrderAll(w)
    ensures InOrder(c.run)
  {
    var run := w.runs[c.r];
    assert c.run.Intent() == run.Intent();
    forall k | 0 <= k < |run.steps| ensures Recordable(c.run, k) {
      assert Recordable(run, k);
    }
    if RecordedStep(w, c) {
      assert Aimed(w, c.thread.worker);
    }
  }

  lemma ChangeAimed(w: World, c: Change, k: nat)
    requires Fits(w, c) && Shaped(w, c) && Orderly(w, c) && InOrderAll(w) && Refers(w) && HeldSound(w)
    requires OneThread(w) && OneThread(Apply(w, c))
    ensures Aimed(Apply(w, c), k)
  {
    var w' := Apply(w, c);
    if k < |w'.workers| && w'.workers[k].run == c.r && w'.workers[k].pc != Done && k < |w.workers| {
      assert Live(w', k, c.r) && Aimed(w, k);
      if c.thread.Moves? && k == c.thread.worker {
        MovedAimed(w, c);
      } else if c.thread.Moves? {
        assert c.thread.pc != Done ==> Live(w', c.thread.worker, c.r);
        assert w.workers[c.thread.worker].pc != Done ==> Live(w, c.thread.worker, c.r) && Live(w, k, c.r);
      } else if c.thread.Spawn? {
        assert Live(w', |w.workers|, c.r);
      }
    } else {
      assert Aimed(w, k);
    }
  }

  lemma MovedAimed(w: World, c: Change)
    requires Fits(w, c) && Orderly(w, c) && InOrderAll(w) && Refers(w) && HeldSound(w)
    requires Waited(w, c) || Finished(w, c) || Submitted(w, c) || RecordedStep(w, c)
    ensures Aimed(Apply(w, c), c.thread.worker)
  {
    assert Aimed(w, c.thread.worker);
    assert Placed(w.runs[c.r]);
    assert c.run.Intent() == w.runs[c.r].Intent();
  }

  lemma ChangeHeldFresh(w: World, c: Change)
    requires Fits(w, c) && Shaped(w, c) && Orderly(w, c) && InOrderAll(w) && Refers(w) && HeldSound(w)
    ensures HeldFresh(Apply(w, c))
  {
    assert RunRefers(w, w.runs[c.r]);
  }

  lemma ChangeKeepsInOrder(w: World, a: Action)
    requires Owned(w) && Refers(w) && InOrderAll(w) && Decide(w, a).Some?
    requires OneThread(w) && OneThread(Apply(w, Decide(w, a).value))
    ensures InOrderAll(Apply(w, Decide(w, a).value))
  {
    var c := Decide(w, a).value;
    DecideShape(w, a);
    DecideIsOrderly(w, a);
    ChangePlaced(w, a);
    ChangeInOrder(w, c);
    forall k: nat ensures Aimed(Apply(w, c), k) {
      ChangeAimed(w, c, k);
    }
    ChangeHeldFresh(w, c);
  }

  lemma PrepareKeepsInOrder(w: World, id: nat, body: Body, undrifted: bool)
    requires Owned(w) && InOrderAll(w) && forall k :: 0 <= k < |w.workers| ==> w.workers[k].run < |w.runs|
    ensures InOrderAll(DoPrepare(w, id, body, undrifted))
  {
    var w' := DoPrepare(w, id, body, undrifted);
    forall r | 0 <= r < |w.runs| ensures InOrder(w'.runs[r]) && Placed(w'.runs[r]) {
      assert w'.runs[r] == w.runs[r];
    }
    forall k: nat ensures Aimed(w', k) {
      assert Aimed(w, k);
    }
  }

  lemma CrashKeepsInOrder(w: World)
    requires InOrderAll(w)
    ensures InOrderAll(DoCrash(w))
  {
    forall r | 0 <= r < |w.runs| ensures InOrder(DoCrash(w).runs[r]) && Placed(DoCrash(w).runs[r]) {
      var run := w.runs[r];
      forall k | 0 <= k < |run.steps| ensures Recordable(RestartRun(run), k) {
        assert Recordable(run, k);
      }
      assert Placed(run);
    }
  }

  lemma ElsewhereKeepsInOrder(w: World, a: Action)
    requires InOrderAll(w)
    ensures InOrderAll(Elsewhere(w, a))
  {
    ElsewhereKeepsRuns(w, a);
    forall k: nat ensures Aimed(Elsewhere(w, a), k) {
      assert Aimed(w, k);
    }
  }

  /** Every thread belongs to a run. */
  ghost predicate WorkersBelong(w: World) {
    forall k :: 0 <= k < |w.workers| ==> w.workers[k].run < |w.runs|
  }

  lemma ChangeKeepsWorkersBelong(w: World, c: Change)
    requires WorkersBelong(w) && Fits(w, c)
    ensures WorkersBelong(Apply(w, c))
  {
    var w' := Apply(w, c);
    assert forall k :: 0 <= k < |w'.workers| ==> w'.workers[k].run == if k < |w.workers| then w.workers[k].run else c.r;
  }

  lemma StepKeepsWorkersBelong(w: World, a: Action)
    requires WorkersBelong(w)
    ensures WorkersBelong(Step(w, a))
  {
    if a.Crash? {
    } else if a.Prepare? {
    } else if Decide(w, a).Some? {
      ChangeKeepsWorkersBelong(w, Decide(w, a).value);
    } else {
      ElsewhereKeepsRuns(w, a);
    }
  }

  lemma StepKeepsInOrder(w: World, a: Action)
    requires Owned(w) && Refers(w) && WorkersBelong(w) && InOrderAll(w) && OneThread(w) && OneThread(Step(w, a))
    ensures InOrderAll(Step(w, a))
  {
    if a.Crash? {
      CrashKeepsInOrder(w);
    } else if a.Prepare? {
      PrepareKeepsInOrder(w, a.id, a.body, a.undrifted);
    } else if Decide(w, a).Some? {
      ChangeKeepsInOrder(w, a);
    } else {
      ElsewhereKeepsInOrder(w, a);
    }
  }

  /******* Nothing past the bootstrap prefix without evidence *******/

  /** Every step that was submitted from past the bootstrap prefix was submitted
      while evidence of its run stood. */
  ghost predicate SubmittedVouched(w: World) {
    forall p :: 0 <= p < |w.trace| && w.trace[p].StepSubmitted? && w.trace[p].run < |w.runs|
                && w.trace[p].index >= BootstrapCount(w.runs[w.trace[p].run].Intent())
      ==> StandingEvidence(w.trace[..p], w.trace[p].run).Some?
  }

  ghost predicate TraceBelongs(w: World) {
    forall p :: 0 <= p < |w.trace| && w.trace[p].StepSubmitted? ==> w.trace[p].run < |w.runs|
  }

  lemma SubmittedWhileStanding(w: World, c: Change)
    requires Fits(w, c) && Shaped(w, c) && Gated(w) && InOrderAll(w) && c.emit != [] && c.emit[0].StepSubmitted?
    ensures |c.emit| == 1 && c.emit[0].run == c.r
    ensures c.emit[0].index >= BootstrapCount(w.runs[c.r].Intent()) ==> StandingEvidence(w.trace, c.r).Some?
  {
    assert Submitted(w, c) && Placed(w.runs[c.r]);
    assert StandingEvidence(w.trace, c.r) == Shown(w.runs[c.r]);
  }

  lemma ChangeKeepsVouched(w: World, c: Change)
    requires Fits(w, c) && Shaped(w, c) && Orderly(w, c)
    requires Gated(w) && InOrderAll(w) && SubmittedVouched(w) && TraceBelongs(w)
    ensures SubmittedVouched(Apply(w, c)) && TraceBelongs(Apply(w, c))
  {
    var w' := Apply(w, c);
    forall p | 0 <= p < |w'.trace| && w'.trace[p].StepSubmitted? && w'.trace[p].run < |w'.runs|
               && w'.trace[p].index >= BootstrapCount(w'.runs[w'.trace[p].run].Intent())
      ensures StandingEvidence(w'.trace[..p], w'.trace[p].run).Some?
    {
      if p < |w.trace| {
        assert w'.trace[..p] == w.trace[..p] && w'.trace[p] == w.trace[p];
        assert w'.runs[w.trace[p].run].Intent() == w.runs[w.trace[p].run].Intent();
      } else {
        assert w'.trace[p] == c.emit[0] && w'.trace[..p] == w.trace;
        SubmittedWhileStanding(w, c);
      }
    }
  }

  ghost predicate PrefixSound(w: World) {
    && EvidenceSound(w) && WorkersBelong(w) && InOrderAll(w) && SubmittedVouched(w) && TraceBelongs(w)
  }

  lemma DecideKeepsVouched(w: World, a: Action)
    requires PrefixSound(w) && Decide(w, a).Some?
    ensures SubmittedVouched(Apply(w, Decide(w, a).value)) && TraceBelongs(Apply(w, Decide(w, a).value))
  {
    DecideShape(w, a);
    DecideIsOrderly(w, a);
    ChangeKeepsVouched(w, Decide(w, a).value);
  }

  lemma SameTraceVouched(w: World, w': World)
    requires SubmittedVouched(w) && TraceBelongs(w) && w'.trace == w.trace && |w.runs| <= |w'.runs|
    requires forall r :: 0 <= r < |w.runs| ==> w'.runs[r].snapshot == w.runs[r].snapshot
    ensures SubmittedVouched(w') && TraceBelongs(w')
  {
    assert forall r :: 0 <= r < |w.runs| ==> w'.runs[r].Intent() == w.runs[r].Intent();
  }

  lemma StepKeepsVouched(w: World, a: Action)
    requires PrefixSound(w)
    ensures SubmittedVouched(Step(w, a)) && TraceBelongs(Step(w, a))
  {
    if !a.Crash? && !a.Prepare? && Decide(w, a).Some? {
      DecideKeepsVouched(w, a);
    } else {
      ElsewhereKeepsRuns(w, a);
      SameTraceVouched(w, Step(w, a));
    }
  }

  /******* Every history with at most one thread per run *******/

  lemma {:induction false} PrefixStaysSound(history: seq<Action>)
    requires AlwaysOneThread(history)
    ensures PrefixSound(After(history))
  {
    if history != [] {
      var front, a := history[..|history| - 1], history[|history| - 1];
      PrefixStaysSound(front);
      EvidenceStaysSound(history);
      StepKeepsWorkersBelong(After(front), a);
      StepKeepsInOrder(After(front), a);
      StepKeepsVouched(After(front), a);
    }
  }

  /** The k-th record of a run is the k-th step of its snapshot, and its job, which no
      other record shares, succeeded with exactly that step's configuration. */
  lemma RecordsAreAPrefix(history: seq<Action>, r: nat)
    requires AlwaysOneThread(history) && r < |After(history).runs|
    ensures var w, run := After(history), After(history).runs[r];
      && InOrder(run) && |run.steps| <= |run.Intent()|
      && forall k :: 0 <= k < |run.steps| ==> RanOk(w, run.steps[k].job, ConfigureTask(run.Intent()[k]))
  {
    PrefixStaysSound(history);
    RecordsRan(After(history), r);
  }

  lemma RecordsRan(w: World, r: nat)
    requires PrefixSound(w) && r < |w.runs|
    ensures var run := w.runs[r];
      && InOrder(run) && |run.steps| <= |run.Intent()|
      && forall k :: 0 <= k < |run.steps| ==> RanOk(w, run.steps[k].job, ConfigureTask(run.Intent()[k]))
  {
    var run := w.runs[r];
    assert RunRefers(w, run);
    if run.steps != [] {
      assert Recordable(run, |run.steps| - 1);
    }
    forall k | 0 <= k < |run.steps| ensures RanOk(w, run.steps[k].job, ConfigureTask(run.Intent()[k])) {
      assert Recordable(run, k) && RecordRefers(w, run, run.steps[k]);
    }
  }

  /** A run at or past the health gate has its whole bootstrap prefix recorded, and a
      run that awaits acceptance has every step. */
  lemma BootstrapIsCompleteAtTheGate(history: seq<Action>, r: nat)
    requires AlwaysOneThread(history) && r < |After(history).runs|
    ensures var run := After(history).runs[r];
      && InOrder(run)
      && (run.status.AwaitingHealth? || PastGate(run.status) ==> |run.steps| >= BootstrapCount(run.Intent()))
      && (run.status.AwaitingAcceptance? ==> |run.steps| == |run.Intent()|)
  {
    PrefixStaysSound(history);
    assert Placed(After(history).runs[r]);
  }

  /** An accepted run was deployed by a successful Foundation job with its own reviewed
      content, and every step of its snapshot was run, by a successful job of its own,
      with exactly the reviewed configuration and not as a dry run. */
  lemma AcceptedRunsAreComplete(history: seq<Action>, r: nat)
    requires AlwaysOneThread(history) && r < |After(history).runs| && After(history).runs[r].status.Accepted?
    ensures var w, run := After(history), After(history).runs[r];
      && run.deploymentJob.Some? && RanOk(w, run.deploymentJob.value, DeployTask(run.snapshot.body.content))
      && |run.steps| == |run.Intent()|
      && InOrder(run)
      && forall k :: 0 <= k < |run.steps| ==> RanOk(w, run.steps[k].job, ConfigureTask(run.Intent()[k]))
  {
    PrefixStaysSound(history);
    CompleteWhenAccepted(After(history), r);
  }

  lemma CompleteWhenAccepted(w: World, r: nat)
    requires PrefixSound(w) && r < |w.runs| && w.runs[r].status.Accepted?
    ensures var run := w.runs[r];
      && run.deploymentJob.Some? && RanOk(w, run.deploymentJob.value, DeployTask(run.snapshot.body.content))
      && |run.steps| == |run.Intent()|
      && InOrder(run)
      && forall k :: 0 <= k < |run.steps| ==> RanOk(w, run.steps[k].job, ConfigureTask(run.Intent()[k]))
  {
    assert RunRefers(w, w.runs[r]) && Placed(w.runs[r]);
    RecordsRan(w, r);
  }

  /** A step past the bootstrap prefix is submitted only after health evidence that
      no later reconciliation withdrew. */
  lemma ConfigurationFollowsEvidence(history: seq<Action>, p: nat)
    requires AlwaysOneThread(history)
    requires p < |After(history).trace| && After(history).trace[p].StepSubmitted?
    ensures var w, e := After(history), After(history).trace[p];
      e.run < |w.runs| && (e.index >= BootstrapCount(w.runs[e.run].Intent()) ==> StandingEvidence(w.trace[..p], e.run).Some?)
  {
    PrefixStaysSound(history);
    VouchedAt(After(history), p);
  }

  lemma VouchedAt(w: World, p: nat)
    requires SubmittedVouched(w) && TraceBelongs(w) && p < |w.trace| && w.trace[p].StepSubmitted?
    ensures w.trace[p].run < |w.runs|
    ensures w.trace[p].index >= BootstrapCount(w.runs[w.trace[p].run].Intent()) ==>
      StandingEvidence(w.trace[..p], w.trace[p].run).Some?
  {
  }

  /******* With two threads the prefix is lost *******/

  /** The thread `k` is about to record a step of run `r`. */
  predicate Records(w: World, k: nat, r: nat) {
    && w.held.Free? && k < |w.workers| && w.workers[k].run == r < |w.runs| && w.workers[k].pc.Observed?
    && w.runs[r].status == w.workers[k].ActiveStatus()
    && w.workers[k].pc.success && w.workers[k].pc.index < |w.runs[r].Intent()|
  }

  /** If the action records a step of run `r`, it is the next one, under a new job. */
  ghost predicate InPlace(w: World, a: Action, r: nat) {
    a.WorkerRecord? && Records(w, a.worker, r) ==>
      w.workers[a.worker].pc.index == |w.runs[r].steps| && Fresh(w.runs[r], w.workers[a.worker].pc.job)
  }

  lemma SameRecordsSameOrder(run: Run, run': Run)
    requires run'.steps == run.steps && run'.snapshot == run.snapshot
    ensures InOrder(run') <==> InOrder(run)
  {
    forall k | 0 <= k < |run.steps| ensures Recordable(run, k) <==> Recordable(run', k) {
    }
  }

  lemma AppendedOrder(run: Run, run': Run, record: Recorded)
    requires run'.steps == run.steps + [record] && run'.snapshot == run.snapshot
    requires record.index < |run.Intent()|
    requires record.workflow == run.Intent()[record.index].workflow && record.sha == run.Intent()[record.index].sha
    ensures InOrder(run') <==> InOrder(run) && record.index == |run.steps| && Fresh(run, record.job)
  {
    var n := |run.steps|;
    forall k | 0 <= k < n ensures Recordable(run', k) <==> Recordable(run, k) {
    }
    if InOrder(run') {
      assert Recordable(run', n);
      assert forall k :: 0 <= k < n ==> run'.steps[k] == run.steps[k] && run'.steps[k].job != run'.steps[n].job;
      forall k | 0 <= k < n ensures Recordable(run, k) {
        assert Recordable(run', k);
      }
    }
  }

  /** One change keeps the records in order exactly when a thread that records with it
      works on the next step, under a new job; the code compares only the status name. */
  lemma RecordKeepsOrderIff(w: World, c: Change)
    requires Fits(w, c) && Shaped(w, c) && Orderly(w, c)
    ensures InOrder(c.run) <==>
      InOrder(w.runs[c.r]) && (RecordedStep(w, c) ==>
        var pc := w.workers[c.thread.worker].pc; pc.index == |w.runs[c.r].steps| && Fresh(w.runs[c.r], pc.job))
  {
    if RecordedStep(w, c) || Linked(w, c) {
      AppendedOrder(w.runs[c.r], c.run, c.run.steps[|w.runs[c.r].steps|]);
    } else {
      SameRecordsSameOrder(w.runs[c.r], c.run);
    }
  }

  lemma DecideOrder(w: World, a: Action, r: nat)
    requires Owned(w) && r < |w.runs| && Decide(w, a).Some?
    ensures InOrder(Apply(w, Decide(w, a).value).runs[r]) <==> InOrder(w.runs[r]) && InPlace(w, a, r)
  {
    var c := Decide(w, a).value;
    DecideIsOrderly(w, a);
    DecideShape(w, a);
    RecordedByThread(w, a);
    RecordKeepsOrderIff(w, c);
  }

  /** A step is recorded by a thread exactly when such a thread records. */
  lemma RecordedByThread(w: World, a: Action)
    requires HeldSound(w) && Decide(w, a).Some?
    ensures var c := Decide(w, a).value;
      RecordedStep(w, c) <==> a.WorkerRecord? && Records(w, a.worker, c.r)
    ensures a.WorkerRecord? ==> var c := Decide(w, a).value; a.worker < |w.workers| && w.workers[a.worker].run == c.r
    ensures a.WorkerRecord? && RecordedStep(w, Decide(w, a).value) ==> Decide(w, a).value.thread.worker == a.worker
  {
    if !a.WorkerRecord? && Decide(w, a).value.thread.Moves? {
      OtherThreadSteps(w, a);
    }
  }

  lemma OtherThreadSteps(w: World, a: Action)
    requires HeldSound(w) && Decide(w, a).Some? && !a.WorkerRecord? && Decide(w, a).value.thread.Moves?
    ensures !RecordedStep(w, Decide(w, a).value)
  {
  }

  lemma StepOrder(w: World, a: Action, r: nat)
    requires Owned(w)
    ensures |w.runs| <= |Step(w, a).runs|
    ensures r < |w.runs| ==> (InOrder(Step(w, a).runs[r]) <==> InOrder(w.runs[r]) && InPlace(w, a, r))
    ensures |w.runs| <= r < |Step(w, a).runs| ==> InOrder(Step(w, a).runs[r])
  {
    if a.Crash? || a.Prepare? {
      OtherOrder(w, a, r);
    } else if Decide(w, a).Some? {
      if r < |w.runs| {
        DecideOrder(w, a, r);
      }
    } else {
      UndecidedOrder(w, a, r);
    }
  }

  lemma OtherOrder(w: World, a: Action, r: nat)
    requires a.Crash? || a.Prepare?
    ensures |w.runs| <= |Step(w, a).runs|
    ensures r < |w.runs| ==> (InOrder(Step(w, a).runs[r]) <==> InOrder(w.runs[r]))
    ensures |w.runs| <= r < |Step(w, a).runs| ==> InOrder(Step(w, a).runs[r])
  {
    if r < |w.runs| {
      SameRecordsSameOrder(w.runs[r], Step(w, a).runs[r]);
    }
  }

  lemma UndecidedOrder(w: World, a: Action, r: nat)
    requires !a.Crash? && !a.Prepare? && Decide(w, a).None?
    ensures Step(w, a).runs == w.runs && InPlace(w, a, r)
  {
    ElsewhereKeepsRuns(w, a);
  }

  /** Every record of run `r` was, when it was made, the next one under a new job. */
  ghost predicate RecordedInPlace(history: seq<Action>, r: nat) {
    history == []
    || (var front, a := history[..|history| - 1], history[|history| - 1];
        RecordedInPlace(front, r) && InPlace(After(front), a, r))
  }

  /** In any history, with any number of threads, the records of a run are in order if
      and only if each thread that recorded a step of it found that step to be the
      next one, under a job no record had. */
  lemma {:induction false} RecordsInOrderIff(history: seq<Action>, r: nat)
    requires r < |After(history).runs|
    ensures InOrder(After(history).runs[r]) <==> RecordedInPlace(history, r)
  {
    if history != [] {
      var front, a := history[..|history| - 1], history[|history| - 1];
      OwnershipStaysSound(front);
      StepOrder(After(front), a, r);
      if r < |After(front).runs| {
        RecordsInOrderIff(front, r);
      } else {
        NothingRecordedBefore(front, r);
      }
    }
  }

  /** A run that does not exist yet has no records. */
  lemma {:induction false} NothingRecordedBefore(history: seq<Action>, r: nat)
    requires r >= |After(history).runs|
    ensures RecordedInPlace(history, r)
  {
    if history != [] {
      var front, a := history[..|history| - 1], history[|history| - 1];
      OwnershipStaysSound(front);
      StepOrder(After(front), a, r);
      NothingRecordedBefore(front, r);
    }
  }
}
