/**
 What every history of the recovery service keeps about ownership of Foundation
 endpoints and nodes, and about the destructive deployment of a run.
 */
module RecoveryOwnership {
  import opened Prelude
  import opened RecoveryIntent
  import opened RecoverySteps

  /******* Captured baselines *******/

  /** Capture copies the datacenter endpoint and the node serials of the one
      cluster, after comparing the endpoint with the deployment file. */
  predicate Captured(body: Body) {
    && |body.content.clusters| == 1
    && body.endpoint == body.content.endpoint
    && body.targets == Serials(body.content)
    && body.steps != []
    && forall k :: 0 <= k < |body.steps| ==>
         && body.steps[k].workflow in POST_ACTIONS
         && body.steps[k].sha == Digest(body.steps[k].config)
         && body.steps[k].config.clusters.Some?
         && |body.steps[k].config.clusters.value| == 1
         && body.steps[k].config.clusters.value[0].1.YMap?
  }

  predicate ProfilesCaptured(profiles: map<nat, Profile>) {
    forall p, v :: p in profiles && 0 <= v < |profiles[p].revisions| ==> Captured(profiles[p].revisions[v].body)
  }

  predicate RunsCaptured(runs: seq<Run>) {
    forall r :: 0 <= r < |runs| ==> Captured(runs[r].snapshot.body)
  }

  lemma CaptureIsCaptured(w: World, dc: nat, content: DeployIntent, pipeline: nat, files: seq<(Workflow, string, PostConfig)>)
    requires Capturable(w, dc, content, true, files)
    ensures Captured(Capture(w, dc, content, pipeline, files))
  {
    assert Serials(content) == set s | s in content.clusters[0].serials;
  }

  lemma ElsewhereKeepsCaptured(w: World, a: Action)
    requires ProfilesCaptured(w.profiles)
    ensures ProfilesCaptured(Elsewhere(w, a).profiles)
  {
    if a.SaveProfile? && Capturable(w, a.dc, a.content, a.valid, a.files) {
      CaptureIsCaptured(w, a.dc, a.content, a.pipeline, a.files);
    }
  }

  /******* What a step does to a run *******/

  /** While the lock is held across a submission, its run or thread waits for it. */
  predicate HeldSound(w: World) {
    match w.held
    case Free => true
    case DeployIntended(r) => r < |w.runs| && w.runs[r].status == Submitting
    case DeployAnswered(r, _, _) => r < |w.runs| && w.runs[r].status == Submitting
    case StepAnswered(k, index, _) =>
      && k < |w.workers| && w.workers[k].pc == Answered && w.workers[k].run < |w.runs|
      && w.runs[w.workers[k].run].status == w.workers[k].ActiveStatus()
      && index == |w.runs[w.workers[k].run].steps| < |w.runs[w.workers[k].run].Intent()|
  }

  /** A change leaves the snapshot alone, never returns a run to `prepared`, and
      makes an inactive run active only by starting its deployment. */
  predicate Orderly(w: World, c: Change)
    requires c.r < |w.runs|
  {
    var run := w.runs[c.r];
    && c.run.snapshot == run.snapshot && c.run.profile == run.profile && c.run.datacenter == run.datacenter
    && (c.run.status == Prepared ==> run.status == Prepared)
    && (Active(c.run.status) && !Active(run.status) ==>
          run.status == Prepared && c.run.status == Submitting && GuardAllows(w, run.snapshot.body.content, Some(c.r)))
    && (run.status == Accepted ==> c.run.status == Accepted)
    && (run.status == ClosedReconciled ==> c.run.status == ClosedReconciled)
  }

  lemma DeployIsOrderly(w: World, a: Action)
    requires HeldSound(w) && Settle(w, a).Some? && (a.DeployBegin? || a.DeploySubmit? || a.DeployFinish?)
    ensures Orderly(w, Settle(w, a).value)
  {
  }

  lemma HealthIsOrderly(w: World, a: Action)
    requires Settle(w, a).Some? && !a.DeployBegin? && !a.DeploySubmit? && !a.DeployFinish?
    ensures Orderly(w, Settle(w, a).value)
  {
  }

  lemma SettleIsOrderly(w: World, a: Action)
    requires HeldSound(w) && Settle(w, a).Some?
    ensures Orderly(w, Settle(w, a).value)
  {
    if a.DeployBegin? || a.DeploySubmit? || a.DeployFinish? {
      DeployIsOrderly(w, a);
    } else {
      HealthIsOrderly(w, a);
    }
  }

  lemma SettleKeepsHeldSound(w: World, a: Action)
    requires HeldSound(w) && Settle(w, a).Some?
    ensures HeldSound(Apply(w, Settle(w, a).value))
  {
  }

  lemma OrderIsOrderly(w: World, a: Action)
    requires HeldSound(w) && Order(w, a).Some?
    ensures Orderly(w, Order(w, a).value)
  {
  }

  lemma OrderKeepsHeldSound(w: World, a: Action)
    requires HeldSound(w) && Order(w, a).Some?
    ensures HeldSound(Apply(w, Order(w, a).value))
  {
  }

  lemma AdvanceIsOrderly(w: World, a: Action)
    requires HeldSound(w) && Advance(w, a).Some?
    ensures Orderly(w, Advance(w, a).value)
  {
  }

  lemma AdvanceKeepsHeldSound(w: World, a: Action)
    requires HeldSound(w) && Advance(w, a).Some?
    ensures HeldSound(Apply(w, Advance(w, a).value))
  {
  }

  lemma DecideIsOrderly(w: World, a: Action)
    requires HeldSound(w) && Decide(w, a).Some?
    ensures Orderly(w, Decide(w, a).value)
  {
    if Settle(w, a).Some? {
      SettleIsOrderly(w, a);
    } else if Order(w, a).Some? {
      OrderIsOrderly(w, a);
    } else {
      AdvanceIsOrderly(w, a);
    }
  }

  lemma ElsewhereKeepsRuns(w: World, a: Action)
    ensures Elsewhere(w, a).runs == w.runs && Elsewhere(w, a).workers == w.workers && Elsewhere(w, a).held == w.held
    ensures Elsewhere(w, a).trace == w.trace && Elsewhere(w, a).now >= w.now
  {
  }

  /******* Exclusive ownership *******/

  /** No two runs that may act on hardware share a Foundation endpoint or a node. */
  predicate Exclusive(runs: seq<Run>) {
    forall i, j :: 0 <= i < j < |runs| && Active(runs[i].status) && Active(runs[j].status) ==>
      && runs[i].snapshot.body.endpoint != runs[j].snapshot.body.endpoint
      && runs[i].snapshot.body.targets !! runs[j].snapshot.body.targets
  }

  lemma OrderlyKeepsExclusive(w: World, c: Change)
    requires Fits(w, c) && Orderly(w, c) && RunsCaptured(w.runs) && Exclusive(w.runs)
    ensures RunsCaptured(Apply(w, c).runs) && Exclusive(Apply(w, c).runs)
  {
    var runs := Apply(w, c).runs;
    forall i | 0 <= i < |runs| && i != c.r && Active(runs[i].status) && Active(c.run.status)
      ensures runs[i].snapshot.body.endpoint != c.run.snapshot.body.endpoint
      ensures runs[i].snapshot.body.targets !! c.run.snapshot.body.targets
    {
      if !Active(w.runs[c.r].status) {
        assert !Conflicts(w.runs[c.r].snapshot.body.content, w.runs[i].snapshot.body.endpoint, w.runs[i].snapshot.body.targets);
      }
    }
  }

  ghost predicate Owned(w: World) {
    HeldSound(w) && ProfilesCaptured(w.profiles) && RunsCaptured(w.runs) && Exclusive(w.runs)
  }

  lemma ChangeKeepsOwned(w: World, a: Action)
    requires Owned(w) && Decide(w, a).Some?
    ensures Owned(Apply(w, Decide(w, a).value))
  {
    if Settle(w, a).Some? {
      SettleKeepsHeldSound(w, a);
    } else if Order(w, a).Some? {
      OrderKeepsHeldSound(w, a);
    } else {
      AdvanceKeepsHeldSound(w, a);
    }
    DecideIsOrderly(w, a);
    OrderlyKeepsExclusive(w, Decide(w, a).value);
  }

  lemma PrepareKeepsOwned(w: World, id: nat, body: Body, undrifted: bool)
    requires Owned(w)
    ensures Owned(DoPrepare(w, id, body, undrifted))
  {
  }

  lemma CrashKeepsOwned(w: World)
    requires Owned(w)
    ensures Owned(DoCrash(w))
  {
  }

  lemma StepKeepsOwned(w: World, a: Action)
    requires Owned(w)
    ensures Owned(Step(w, a))
  {
    if a.Crash? {
      CrashKeepsOwned(w);
    } else if a.Prepare? {
      PrepareKeepsOwned(w, a.id, a.body, a.undrifted);
    } else if Decide(w, a).Some? {
      ChangeKeepsOwned(w, a);
    } else {
      ElsewhereKeepsRuns(w, a);
      ElsewhereKeepsCaptured(w, a);
    }
  }

  lemma {:induction false} OwnershipStaysSound(history: seq<Action>)
    ensures Owned(After(history))
  {
    if history != [] {
      OwnershipStaysSound(history[..|history| - 1]);
      StepKeepsOwned(After(history[..|history| - 1]), history[|history| - 1]);
    }
  }

  /** In every reachable state, for any number of runs, two active runs have different
      Foundation endpoints and no node in common. */
  lemma ActiveRunsOwnDisjointHardware(history: seq<Action>, r: nat, q: nat)
    requires r < |After(history).runs| && q < |After(history).runs| && r != q
    requires Active(After(history).runs[r].status) && Active(After(history).runs[q].status)
    ensures var one, other := After(history).runs[r].snapshot.body, After(history).runs[q].snapshot.body;
      one.endpoint != other.endpoint && one.targets !! other.targets
  {
    OwnershipStaysSound(history);
    assert Exclusive(After(history).runs);
  }
}
