/**
 Why the results about recorded steps assume one live thread per run: a thread
 compares only the status name when it wakes, so stop, reconcile with resume and
 a restart inside one poll leave two threads, and both record the same step.
 */
module RecoveryTwoThreads {
  import opened Prelude
  import opened RecoveryIntent
  import opened RecoverySteps
  import opened RecoveryOwnership
  import opened RecoverySubmissions
  import opened RecoveryEvidence
  import opened RecoveryPrefix

  /** A configuring run with idle jobs and no pending password change can be
      stopped and resumed; it then awaits health with nothing else changed. */
  lemma StopAndResume(w: World, r: nat)
    requires w.held.Free? && r < |w.runs| && w.runs[r].status.Configuring?
    requires JobIdle(w, w.runs[r].currentJob) && Resumable(w, w.runs[r])
    requires BootstrapCount(w.runs[r].Intent()) <= |w.runs[r].steps|
    ensures OnStop(w, r, true).Some?
    ensures var w1 := Apply(w, OnStop(w, r, true).value);
      OnReconcile(w1, r, true, true).Some? &&
      Apply(w1, OnReconcile(w1, r, true, true).value) == AfterResume(w, r)
  {
    var w1 := Apply(w, OnStop(w, r, true).value);
    assert w1.jobs == w.jobs;
  }

  function AfterResume(w: World, r: nat): World
    requires r < |w.runs|
  {
    w.(runs := w.runs[r := w.runs[r].(status := AwaitingHealth, evidence := None)], trace := w.trace + [Reconciled(r, true)])
  }

  /** A run that awaits health with its bootstrap recorded can be verified and started. */
  lemma VerifyAndStart(w: World, r: nat)
    requires w.held.Free? && r < |w.runs| && w.runs[r].status.AwaitingHealth?
    requires HealthCheckable(w, w.runs[r])
    ensures OnAttestHealth(w, r, true).Some?
    ensures var w1 := Apply(w, OnAttestHealth(w, r, true).value);
      OnStartConfiguration(w1, r, true, {}).Some? &&
      var w2 := Apply(w1, OnStartConfiguration(w1, r, true, {}).value);
      w2.runs[r].status.Configuring? && w2.workers == w.workers + [Worker(r, false, |w.trace| + 1, Top)]
  {
    var w1 := Apply(w, OnAttestHealth(w, r, true).value);
    assert BootstrapRecorded(w1, w1.runs[r], BootstrapCount(w1.runs[r].Intent()));
  }

  /** So a restart inside one poll of a thread leaves the run with two live threads. */
  lemma RestartInsideOnePollLeavesTwoThreads(w: World, r: nat, j: nat)
    requires w.held.Free? && r < |w.runs| && w.runs[r].status.Configuring?
    requires Live(w, j, r) && w.workers[j].pc.Polling?
    requires JobIdle(w, w.runs[r].currentJob) && Resumable(w, w.runs[r])
    requires BootstrapRecorded(w, w.runs[r], BootstrapCount(w.runs[r].Intent()))
    ensures OnAttestHealth(AfterResume(w, r), r, true).Some?
    ensures var w1 := Apply(AfterResume(w, r), OnAttestHealth(AfterResume(w, r), r, true).value);
      OnStartConfiguration(w1, r, true, {}).Some? &&
      var w2 := Apply(w1, OnStartConfiguration(w1, r, true, {}).value);
      w2.runs[r].status.Configuring? && Live(w2, j, r) && Live(w2, |w.workers|, r) && !OneThread(w2)
  {
    StopAndResume(w, r);
    assert HealthCheckable(AfterResume(w, r), AfterResume(w, r).runs[r]);
    VerifyAndStart(AfterResume(w, r), r);
    var w1 := Apply(AfterResume(w, r), OnAttestHealth(AfterResume(w, r), r, true).value);
    var w2 := Apply(w1, OnStartConfiguration(w1, r, true, {}).value);
    assert Live(w2, j, r) && Live(w2, |w.workers|, r);
  }

  ghost predicate BothWoke(w: World, r: nat, j: nat, k: nat, i: nat) {
    && w.held.Free? && r < |w.runs| && w.runs[r].status.Configuring?
    && j < |w.workers| && k < |w.workers| && j != k
    && w.workers[j].run == r && w.workers[k].run == r && !w.workers[j].bootstrap && !w.workers[k].bootstrap
    && w.workers[j].pc.Observed? && w.workers[j].pc.index == i && w.workers[j].pc.success
    && w.workers[k].pc.Observed? && w.workers[k].pc.index == i && w.workers[k].pc.success
    && |w.runs[r].steps| == i < |w.runs[r].Intent()|
  }

  ghost function RecordBoth(w: World, j: nat, k: nat): World
    requires OnWorkerRecord(w, j).Some? && OnWorkerRecord(Apply(w, OnWorkerRecord(w, j).value), k).Some?
  {
    var w1 := Apply(w, OnWorkerRecord(w, j).value);
    Apply(w1, OnWorkerRecord(w1, k).value)
  }

  /** Two threads that both saw step `i` succeed record it twice, and the records
      stop being a prefix of the snapshot. */
  lemma BothThreadsRecordOneStep(w: World, r: nat, j: nat, k: nat, i: nat)
    requires BothWoke(w, r, j, k, i)
    ensures OnWorkerRecord(w, j).Some? && OnWorkerRecord(Apply(w, OnWorkerRecord(w, j).value), k).Some?
    ensures var run := RecordBoth(w, j, k).runs[r];
      |run.steps| == i + 2 && run.steps[i].index == i && run.steps[i + 1].index == i && !InOrder(run)
  {
    var run := RecordBoth(w, j, k).runs[r];
    assert !Recordable(run, i + 1);
  }

  /** When that was the last step but one, the run goes on to be accepted, and the
      last step is submitted no more often than before. */
  lemma TwoThreadsAcceptAnUnrunStep(w: World, r: nat, j: nat, k: nat, i: nat)
    requires BothWoke(w, r, j, k, i) && i + 2 == |w.runs[r].Intent()|
    requires Succeeded(w, w.runs[r].deploymentJob)
    requires Succeeded(w, Some(w.workers[j].pc.job)) && Succeeded(w, Some(w.workers[k].pc.job))
    requires forall m :: 0 <= m < i ==> Succeeded(w, Some(w.runs[r].steps[m].job))
    ensures OnWorkerRecord(w, j).Some? && OnWorkerRecord(Apply(w, OnWorkerRecord(w, j).value), k).Some?
    ensures var w2 := RecordBoth(w, j, k);
      OnWorkerTop(w2, k, false, true, true, true).Some? &&
      var w3 := Apply(w2, OnWorkerTop(w2, k, false, true, true, true).value);
      OnAccept(w3, r, true).Some? &&
      var w4 := Apply(w3, OnAccept(w3, r, true).value);
      w4.runs[r].status.Accepted? && w4.trace == w.trace
  {
    var w2 := RecordBoth(w, j, k);
    assert w2.runs[r].steps[..i] == w.runs[r].steps;
    var w3 := Apply(w2, OnWorkerTop(w2, k, false, true, true, true).value);
    assert w3.runs[r].status.AwaitingAcceptance? && w3.jobs == w.jobs;
    forall m | 0 <= m < |w3.runs[r].steps| ensures Succeeded(w3, Some(w3.runs[r].steps[m].job)) {
      if m < i {
        assert w3.runs[r].steps[m] == w.runs[r].steps[m];
      }
    }
  }
}
