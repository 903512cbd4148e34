/**
 What leaves the service: over every history, crashes included, a run submits its
 destructive deployment at most once, and a snapshot step that changes the PE
 administrator password is submitted at most once, even when two threads of one
 run are alive.
 */
module RecoverySubmissions {
  import opened Prelude
  import opened RecoveryIntent
  import opened RecoverySteps
  import opened RecoveryOwnership

  /******* The shapes a change can take *******/

  /** Statuses in which no thread of the run may be about to submit. */
  predicate Quiet(s: Status) {
    s.Prepared? || s.Submitting? || s.Deploying? || s.AwaitingHealth? || s.Ready? || s.AwaitingBootstrap? || s.AwaitingAcceptance?
  }

  predicate Working(s: Status) {
    s.Bootstrapping? || s.Configuring?
  }

  /** A request that neither starts a thread nor records a step. */
  predicate Plain(w: World, c: Change)
    requires c.r < |w.runs|
  {
    var run := w.runs[c.r];
    && c.thread.NoThread? && c.run.steps == run.steps
    && (c.emit == []
        || (|c.emit| == 1 && c.emit[0].run == c.r
            && (c.emit[0].DeploySubmitted? || c.emit[0].CollectionStarted? || c.emit[0].EvidenceRecorded? || c.emit[0].Reconciled?)))
    && (DeploySubmitted(c.r) in c.emit ==> w.held == DeployIntended(c.r) && c.held.DeployAnswered? && c.run == run)
    && (c.held == w.held || !c.held.StepAnswered?)
    && (Working(c.run.status) ==> c.run.status == run.status)
    && (Quiet(c.run.status) && !Quiet(run.status) ==> c.emit == [Reconciled(c.r, true)])
    && (c.emit == [Reconciled(c.r, true)] ==>
          forall i :: |run.steps| <= i < |run.Intent()| ==> !ChangesPassword(run.Intent()[i]))
    && (c.held.DeployIntended? ==> c.held == DeployIntended(c.r) && run.status.Prepared? && c.run.status.Submitting?)
  }

  predicate Linked(w: World, c: Change)
    requires c.r < |w.runs|
  {
    var run := w.runs[c.r];
    && c.thread.NoThread? && |c.emit| == 1 && c.emit[0].JobLinked? && c.emit[0].run == c.r
    && run.status.Ready? && w.held.Free? && c.held.Free?
    && |run.steps| < |run.Intent()|
    && |c.run.steps| == |run.steps| + 1
    && var job := c.run.steps[|run.steps|].job;
    && var step := run.Intent()[|run.steps|];
    && c.run.steps == run.steps + [Recorded(|run.steps|, step.workflow, job, step.sha)]
    && (forall k :: 0 <= k < |run.steps| ==> run.steps[k].job != job)
    && c.run.deploymentJob == run.deploymentJob
    && (c.run.status.AwaitingAcceptance? ==> |c.run.steps| == |run.Intent()|)
    && (c.run.status.Ready? || c.run.status.AwaitingAcceptance?)
  }

  predicate Started(w: World, c: Change)
    requires c.r < |w.runs|
  {
    var run := w.runs[c.r];
    && c.thread.Spawn? && |c.emit| == 1 && c.emit[0].ThreadStarted? && c.emit[0].run == c.r
    && c.run.steps == run.steps && w.held.Free? && c.held.Free?
    && Quiet(run.status) && !run.status.Prepared?
    && c.run.status == (if c.thread.bootstrap then Bootstrapping else Configuring)
  }

  /** A thread that waits, fails, stops or gives up. */
  predicate Waited(w: World, c: Change)
    requires Fits(w, c)
  {
    var run := w.runs[c.r];
    && c.thread.Moves? && c.thread.pc != Top && c.thread.pc != Answered && c.emit == [] && c.run.steps == run.steps
    && w.workers[c.thread.worker].pc != Done
    && (c.thread.pc.Polling? ==> w.held == StepAnswered(c.thread.worker, c.thread.pc.index, Some(c.thread.pc.job)))
    && (c.thread.pc.Observed? ==> w.workers[c.thread.worker].pc == Polling(c.thread.pc.index, c.thread.pc.job))
    && (c.held == w.held || c.held.Free?)
    && (c.run.status == run.status || (c.run.status.NeedsReconciliation? && c.thread.pc == Done))
    && !c.held.DeployIntended?
  }

  ghost predicate Finished(w: World, c: Change)
    requires Fits(w, c)
  {
    var run := w.runs[c.r];
    && c.thread.Moves? && w.workers[c.thread.worker].pc == Top && c.thread.pc == Done
    && c.emit == [] && c.run.steps == run.steps && w.held.Free? && c.held.Free?
    && run.status == w.workers[c.thread.worker].ActiveStatus()
    && |run.steps| == End(w.workers[c.thread.worker], run)
    && c.run.status == (if run.status.Bootstrapping? then AwaitingHealth else AwaitingAcceptance)
  }

  ghost predicate Submitted(w: World, c: Change)
    requires Fits(w, c)
  {
    var run := w.runs[c.r];
    && c.thread.Moves? && w.workers[c.thread.worker].pc == Top && c.thread.pc == Answered
    && |c.emit| == 1 && c.emit[0].StepSubmitted? && c.emit[0].run == c.r && c.emit[0].index == |run.steps|
    && c.emit[0].thread == w.workers[c.thread.worker].born
    && c.run == run && c.held.StepAnswered?
    && run.status == w.workers[c.thread.worker].ActiveStatus()
    && |run.steps| != End(w.workers[c.thread.worker], run)
    && |run.steps| < |run.Intent()|
    && c.held.worker == c.thread.worker
    && (c.held.job.Some? ==> c.held.job.value == w.nextJob)
  }

  predicate RecordedStep(w: World, c: Change)
    requires Fits(w, c)
  {
    var run := w.runs[c.r];
    && c.thread.Moves? && w.workers[c.thread.worker].pc.Observed? && c.thread.pc == Top
    && c.emit == [] && w.held.Free? && c.held.Free?
    && run.status == w.workers[c.thread.worker].ActiveStatus() == c.run.status
    && var pc := w.workers[c.thread.worker].pc;
    && pc.success && pc.index < |run.Intent()|
    && c.run.steps == run.steps + [Recorded(pc.index, run.Intent()[pc.index].workflow, pc.job, run.Intent()[pc.index].sha)]
  }

  lemma DeployShape(w: World, a: Action)
    requires HeldSound(w) && Settle(w, a).Some? && (a.DeployBegin? || a.DeploySubmit? || a.DeployFinish?)
    ensures Plain(w, Settle(w, a).value)
  {
  }

  lemma HealthShape(w: World, a: Action)
    requires HeldSound(w) && Settle(w, a).Some? && !a.DeployBegin? && !a.DeploySubmit? && !a.DeployFinish?
    ensures Plain(w, Settle(w, a).value)
  {
  }

  lemma SettleShape(w: World, a: Action)
    requires HeldSound(w) && Settle(w, a).Some?
    ensures Plain(w, Settle(w, a).value)
  {
    if a.DeployBegin? || a.DeploySubmit? || a.DeployFinish? {
      DeployShape(w, a);
    } else {
      HealthShape(w, a);
    }
  }

  lemma EndingShape(w: World, a: Action)
    requires HeldSound(w) && Order(w, a).Some? && (a.Reconcile? || a.ClosePrepared? || a.Stop? || a.Accept?)
    ensures Plain(w, Order(w, a).value)
  {
  }

  lemma OtherOrderShape(w: World, a: Action)
    requires HeldSound(w) && Order(w, a).Some? && !a.Reconcile? && !a.ClosePrepared? && !a.Stop? && !a.Accept?
    ensures var c := Order(w, a).value; Linked(w, c) || Started(w, c)
  {
  }

  lemma OrderShape(w: World, a: Action)
    requires HeldSound(w) && Order(w, a).Some?
    ensures var c := Order(w, a).value; Plain(w, c) || Linked(w, c) || Started(w, c)
  {
    if a.Reconcile? || a.ClosePrepared? || a.Stop? || a.Accept? {
      EndingShape(w, a);
    } else {
      OtherOrderShape(w, a);
    }
  }

  lemma TopShape(w: World, a: Action)
    requires HeldSound(w) && Advance(w, a).Some? && a.WorkerTop?
    ensures var c := Advance(w, a).value; Waited(w, c) || Finished(w, c) || Submitted(w, c)
  {
  }

  lemma LaterShape(w: World, a: Action)
    requires HeldSound(w) && Advance(w, a).Some? && !a.WorkerTop?
    ensures var c := Advance(w, a).value; Waited(w, c) || RecordedStep(w, c)
  {
  }

  lemma AdvanceShape(w: World, a: Action)
    requires HeldSound(w) && Advance(w, a).Some?
    ensures var c := Advance(w, a).value; Waited(w, c) || Finished(w, c) || Submitted(w, c) || RecordedStep(w, c)
  {
    if a.WorkerTop? {
      TopShape(w, a);
    } else {
      LaterShape(w, a);
    }
  }

  ghost predicate Shaped(w: World, c: Change)
    requires Fits(w, c)
  {
    || Plain(w, c) || Linked(w, c) || Started(w, c)
    || Waited(w, c) || Finished(w, c) || Submitted(w, c) || RecordedStep(w, c)
  }

  lemma DecideShape(w: World, a: Action)
    requires HeldSound(w) && Decide(w, a).Some?
    ensures Shaped(w, Decide(w, a).value)
  {
    if Settle(w, a).Some? {
      SettleShape(w, a);
    } else if Order(w, a).Some? {
      OrderShape(w, a);
    } else {
      AdvanceShape(w, a);
    }
  }

  /******* The deployment of a run *******/

  ghost function DeploysSent(w: World, r: nat): nat {
    multiset(w.trace)[DeploySubmitted(r)]
  }

  /** The deployment is still to be sent: the run is prepared, or its intent is
      stored and the lock is held for the submission. */
  ghost predicate DeployPending(w: World, r: nat) {
    r >= |w.runs| || w.runs[r].status.Prepared? || w.held == DeployIntended(r)
  }

  ghost predicate DeployOnce(w: World) {
    forall r: nat :: DeploysSent(w, r) <= 1 && (DeployPending(w, r) ==> DeploysSent(w, r) == 0)
  }

  lemma ChangeKeepsDeployOnce(w: World, c: Change)
    requires Fits(w, c) && Shaped(w, c) && Orderly(w, c) && HeldSound(w) && DeployOnce(w)
    ensures DeployOnce(Apply(w, c))
  {
    var w' := Apply(w, c);
    assert multiset(w'.trace) == multiset(w.trace) + multiset(c.emit);
    forall r: nat
      ensures DeploysSent(w', r) <= 1 && (DeployPending(w', r) ==> DeploysSent(w', r) == 0)
    {
      assert DeployPending(w, r) ==> DeploysSent(w, r) == 0;
      assert DeployPending(w', r) ==> DeployPending(w, r);
    }
  }

  /******* Password changes *******/

  predicate Sends(e: Event, r: nat, i: nat) {
    e.StepSubmitted? && e.run == r && e.index == i
  }

  /** How often step `i` of run `r` was submitted. */
  function Submissions(trace: seq<Event>, r: nat, i: nat): nat {
    if trace == [] then 0
    else Submissions(trace[..|trace| - 1], r, i) + if Sends(trace[|trace| - 1], r, i) then 1 else 0
  }

  ghost function Sent(w: World, r: nat, i: nat): nat {
    Submissions(w.trace, r, i)
  }

  predicate Resumed(w: World, r: nat) {
    Reconciled(r, true) in w.trace
  }

  predicate Live(w: World, k: nat, r: nat) {
    k < |w.workers| && w.workers[k].run == r && w.workers[k].pc != Done
  }

  /** Steps after the next one were never submitted; a step that changes the
      password was submitted at most once. */
  ghost predicate SentSound(w: World, r: nat) {
    && (forall i: nat :: (r < |w.runs| ==> i > |w.runs[r].steps|) ==> Sent(w, r, i) == 0)
    && (forall i: nat :: r < |w.runs| && i < |w.runs[r].Intent()| && ChangesPassword(w.runs[r].Intent()[i]) ==> Sent(w, r, i) <= 1)
  }

  /** Once a run was resumed, no pending step changes the password. */
  ghost predicate ResumeSound(w: World, r: nat) {
    Resumed(w, r) ==>
      && r < |w.runs|
      && forall i :: |w.runs[r].steps| <= i < |w.runs[r].Intent()| ==> !ChangesPassword(w.runs[r].Intent()[i])
  }

  /** Until then at most one thread of the run is alive, none while the run is
      quiet, and a thread about to submit the next step is the first to do so. */
  ghost predicate FirstSound(w: World, r: nat) {
    && (forall k: nat :: Live(w, k, r) ==> r < |w.runs|)
    && (!Resumed(w, r) && r < |w.runs| ==>
          && (forall j: nat, k: nat :: Live(w, j, r) && Live(w, k, r) ==> j == k)
          && (Quiet(w.runs[r].status) ==> Sent(w, r, |w.runs[r].steps|) == 0 && forall k: nat :: !Live(w, k, r))
          && (Working(w.runs[r].status) ==>
                forall k: nat :: Live(w, k, r) && w.workers[k].pc == Top ==> Sent(w, r, |w.runs[r].steps|) == 0))
  }

  ghost predicate PasswordOnce(w: World) {
    forall r: nat :: SentSound(w, r) && ResumeSound(w, r) && FirstSound(w, r)
  }

  lemma EmitEffect(w: World, c: Change)
    requires Fits(w, c) && Shaped(w, c)
    ensures forall r: nat, i: nat ::
      Sent(Apply(w, c), r, i) == Sent(w, r, i) + if |c.emit| == 1 && Sends(c.emit[0], r, i) then 1 else 0
    ensures forall r: nat :: Resumed(Apply(w, c), r) <==> Resumed(w, r) || c.emit == [Reconciled(r, true)]
  {
    var trace := Apply(w, c).trace;
    if c.emit == [] {
      assert trace == w.trace;
    } else {
      assert trace[..|trace| - 1] == w.trace;
    }
  }

  lemma ThreadEffect(w: World, c: Change, r: nat)
    requires Fits(w, c)
    ensures forall k: nat :: Live(Apply(w, c), k, r) <==>
      if c.thread.Moves? && k == c.thread.worker then r == c.r && c.thread.pc != Done
      else if c.thread.Spawn? && k == |w.workers| then r == c.r
      else Live(w, k, r)
  {
  }

  /** A change touches only its own run. */
  lemma OtherRunsUntouched(w: World, c: Change, r: nat)
    requires Fits(w, c) && Shaped(w, c) && r != c.r
    requires SentSound(w, r) && ResumeSound(w, r) && FirstSound(w, r)
    ensures var w' := Apply(w, c); SentSound(w', r) && ResumeSound(w', r) && FirstSound(w', r)
  {
    var w' := Apply(w, c);
    EmitEffect(w, c);
    ThreadEffect(w, c, r);
    assert forall i: nat :: Sent(w', r, i) == Sent(w, r, i);
    assert Resumed(w', r) <==> Resumed(w, r);
    assert forall k: nat :: Live(w', k, r) <==> Live(w, k, r);
    assert r < |w.runs| ==> w'.runs[r] == w.runs[r];
  }

  lemma ChangeKeepsSent(w: World, c: Change)
    requires Fits(w, c) && Shaped(w, c) && Orderly(w, c)
    requires SentSound(w, c.r) && ResumeSound(w, c.r) && FirstSound(w, c.r)
    ensures SentSound(Apply(w, c), c.r)
  {
    EmitEffect(w, c);
    if Submitted(w, c) {
      assert Live(w, c.thread.worker, c.r);
    }
  }

  lemma ChangeKeepsResume(w: World, c: Change)
    requires Fits(w, c) && Shaped(w, c) && Orderly(w, c) && ResumeSound(w, c.r)
    ensures ResumeSound(Apply(w, c), c.r)
  {
    EmitEffect(w, c);
    assert Apply(w, c).runs[c.r].Intent() == w.runs[c.r].Intent();
    assert |c.run.steps| >= |w.runs[c.r].steps|;
  }

  lemma ChangeKeepsFirst(w: World, c: Change)
    requires Fits(w, c) && Shaped(w, c) && Orderly(w, c)
    requires SentSound(w, c.r) && FirstSound(w, c.r)
    ensures FirstSound(Apply(w, c), c.r)
  {
    EmitEffect(w, c);
    ThreadEffect(w, c, c.r);
    if c.thread.Moves? && w.workers[c.thread.worker].pc != Done {
      assert Live(w, c.thread.worker, c.r);
    }
  }

  /******* Every history *******/

  ghost predicate SubmissionsSound(w: World) {
    Owned(w) && DeployOnce(w) && PasswordOnce(w)
  }

  lemma ChangeKeepsSubmissions(w: World, a: Action)
    requires SubmissionsSound(w) && Decide(w, a).Some?
    ensures SubmissionsSound(Apply(w, Decide(w, a).value))
  {
    var c := Decide(w, a).value;
    DecideShape(w, a);
    DecideIsOrderly(w, a);
    ChangeKeepsOwned(w, a);
    ChangeKeepsDeployOnce(w, c);
    forall r: nat
      ensures SentSound(Apply(w, c), r) && ResumeSound(Apply(w, c), r) && FirstSound(Apply(w, c), r)
    {
      if r == c.r {
        ChangeKeepsSent(w, c);
        ChangeKeepsResume(w, c);
        ChangeKeepsFirst(w, c);
      } else {
        OtherRunsUntouched(w, c, r);
      }
    }
  }

  lemma SameTrace(w: World, w': World)
    requires w'.trace == w.trace
    ensures forall r: nat :: DeploysSent(w', r) == DeploysSent(w, r) && (Resumed(w', r) <==> Resumed(w, r))
    ensures forall r: nat, i: nat :: Sent(w', r, i) == Sent(w, r, i)
  {
  }

  lemma PrepareKeepsSubmissions(w: World, id: nat, body: Body, undrifted: bool)
    requires SubmissionsSound(w)
    ensures SubmissionsSound(DoPrepare(w, id, body, undrifted))
  {
    PrepareKeepsOwned(w, id, body, undrifted);
    var w' := DoPrepare(w, id, body, undrifted);
    SameTrace(w, w');
    assert forall r: nat :: DeployPending(w', r) ==> DeployPending(w, r);
    forall r: nat
      ensures SentSound(w', r) && ResumeSound(w', r) && FirstSound(w', r)
    {
      assert SentSound(w, r) && ResumeSound(w, r) && FirstSound(w, r);
      assert forall k: nat :: Live(w', k, r) <==> Live(w, k, r);
    }
  }

  lemma CrashKeepsSubmissions(w: World)
    requires SubmissionsSound(w)
    ensures SubmissionsSound(DoCrash(w))
  {
    CrashKeepsOwned(w);
    var w' := DoCrash(w);
    SameTrace(w, w');
    assert forall r: nat :: DeployPending(w', r) ==> DeployPending(w, r);
    forall r: nat
      ensures SentSound(w', r) && ResumeSound(w', r) && FirstSound(w', r)
    {
      assert SentSound(w, r) && ResumeSound(w, r) && FirstSound(w, r);
    }
  }

  lemma ElsewhereKeepsSubmissions(w: World, a: Action)
    requires SubmissionsSound(w)
    ensures SubmissionsSound(Elsewhere(w, a))
  {
    ElsewhereKeepsRuns(w, a);
    ElsewhereKeepsCaptured(w, a);
    var w' := Elsewhere(w, a);
    SameTrace(w, w');
    assert forall r: nat :: DeployPending(w', r) <==> DeployPending(w, r);
    forall r: nat
      ensures SentSound(w', r) && ResumeSound(w', r) && FirstSound(w', r)
    {
      assert SentSound(w, r) && ResumeSound(w, r) && FirstSound(w, r);
      assert forall k: nat :: Live(w', k, r) <==> Live(w, k, r);
    }
  }

  lemma StepKeepsSubmissions(w: World, a: Action)
    requires SubmissionsSound(w)
    ensures SubmissionsSound(Step(w, a))
  {
    if a.Crash? {
      CrashKeepsSubmissions(w);
    } else if a.Prepare? {
      PrepareKeepsSubmissions(w, a.id, a.body, a.undrifted);
    } else if Decide(w, a).Some? {
      ChangeKeepsSubmissions(w, a);
    } else {
      ElsewhereKeepsSubmissions(w, a);
    }
  }

  lemma {:induction false} SubmissionsStaySound(history: seq<Action>)
    ensures SubmissionsSound(After(history))
  {
    if history == [] {
      assert multiset(Init().trace) == multiset{};
    } else {
      SubmissionsStaySound(history[..|history| - 1]);
      StepKeepsSubmissions(After(history[..|history| - 1]), history[|history| - 1]);
    }
  }

  /** A run submits its Foundation deployment at most once, whatever crashes. */
  lemma DeploymentSubmittedAtMostOnce(history: seq<Action>, r: nat)
    ensures multiset(After(history).trace)[DeploySubmitted(r)] <= 1
  {
    SubmissionsStaySound(history);
    DeployBound(After(history), r);
  }

  lemma DeployBound(w: World, r: nat)
    requires DeployOnce(w)
    ensures multiset(w.trace)[DeploySubmitted(r)] <= 1
  {
    assert DeploysSent(w, r) <= 1;
  }

  /** No snapshot step that changes the PE administrator password is submitted
      twice, however many threads of the run are alive. */
  lemma PasswordStepSubmittedAtMostOnce(history: seq<Action>, r: nat, i: nat)
    requires r < |After(history).runs| && i < |After(history).runs[r].Intent()|
    requires ChangesPassword(After(history).runs[r].Intent()[i])
    ensures Submissions(After(history).trace, r, i) <= 1
  {
    SubmissionsStaySound(history);
    assert SentSound(After(history), r);
  }

  /******* Order of statuses *******/

  /** From one moment to a later one of the same history, a run keeps its
      snapshot, never returns to `prepared`, and stays closed once closed. */
  lemma {:induction false} RunsNeverGoBack(history: seq<Action>, k: nat, r: nat)
    requires k <= |history| && r < |After(history[..k]).runs|
    ensures r < |After(history).runs|
    ensures var earlier, later := After(history[..k]).runs[r], After(history).runs[r];
      && later.snapshot == earlier.snapshot
      && (!earlier.status.Prepared? ==> !later.status.Prepared?)
      && (Closed(earlier.status) ==> later.status == earlier.status)
  {
    if k == |history| {
      assert history[..k] == history;
    } else {
      var front, a := history[..|history| - 1], history[|history| - 1];
      assert front[..k] == history[..k];
      RunsNeverGoBack(front, k, r);
      OwnershipStaysSound(front);
      StepNeverGoesBack(After(front), a, r);
    }
  }

  /** How a later state of a run compares with an earlier one. */
  predicate Follows(earlier: Run, later: Run) {
    && later.snapshot == earlier.snapshot
    && (!earlier.status.Prepared? ==> !later.status.Prepared?)
    && (Closed(earlier.status) ==> later.status == earlier.status)
  }

  lemma DecideNeverGoesBack(w: World, a: Action, r: nat)
    requires Owned(w) && r < |w.runs| && Decide(w, a).Some?
    ensures r < |Apply(w, Decide(w, a).value).runs| && Follows(w.runs[r], Apply(w, Decide(w, a).value).runs[r])
  {
    DecideIsOrderly(w, a);
  }

  lemma StepNeverGoesBack(w: World, a: Action, r: nat)
    requires Owned(w) && r < |w.runs|
    ensures r < |Step(w, a).runs| && Follows(w.runs[r], Step(w, a).runs[r])
  {
    if a.Crash? {
      assert Step(w, a).runs[r] == RestartRun(w.runs[r]);
    } else if a.Prepare? {
      assert Step(w, a).runs[r] == w.runs[r];
    } else if Decide(w, a).Some? {
      DecideNeverGoesBack(w, a, r);
    } else {
      ElsewhereKeepsRuns(w, a);
    }
  }
}
