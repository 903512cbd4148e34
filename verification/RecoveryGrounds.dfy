/**
 On what ground the service acts, over every history: what was reviewed, approved
 and read from the cluster before a thread was started, a step submitted, a direct
 job linked or evidence recorded. The trace alone is what these results speak about.
 */
module RecoveryGrounds {
  import opened Prelude
  import opened RecoveryIntent
  import opened RecoverySteps
  import opened RecoveryOwnership
  import opened RecoverySubmissions
  import opened RecoveryEvidence
  import opened RecoveryPrefix

  /******* What the trace remembers *******/

  /** The position of the last start of a bootstrap thread of run `r`. */
  function LastStart(trace: seq<Event>, r: nat): (p: Option<nat>)
    ensures p.Some? ==> p.value < |trace| && trace[p.value].ThreadStarted? && trace[p.value].run == r && trace[p.value].start.bootstrap
  {
    if trace == [] then None
    else
      var last := trace[|trace| - 1];
      if last.ThreadStarted? && last.run == r && last.start.bootstrap then Some(|trace| - 1) else LastStart(trace[..|trace| - 1], r)
  }

  /** The individual approvals granted with that start. */
  function LastGrant(trace: seq<Event>, r: nat): map<nat, nat> {
    if LastStart(trace, r).None? then map[] else trace[LastStart(trace, r).value].start.approvals
  }

  /** The position at which the last collection of run `r` was started. */
  function LastReads(trace: seq<Event>, r: nat): (p: Option<nat>)
    ensures p.Some? ==> p.value < |trace| && trace[p.value].CollectionStarted? && trace[p.value].run == r
    ensures p.Some? ==> forall q :: p.value < q < |trace| && trace[q].CollectionStarted? ==> trace[q].run != r
  {
    if trace == [] then None
    else
      var last := trace[|trace| - 1];
      if last.CollectionStarted? && last.run == r then Some(|trace| - 1) else LastReads(trace[..|trace| - 1], r)
  }

  function LastCollection(trace: seq<Event>, r: nat): Option<nat> {
    if LastReads(trace, r).None? then None else Some(trace[LastReads(trace, r).value].collection)
  }

  /******* The ground of each event *******/

  /** The individual approvals of a start: for pending bootstrap steps only, each for
      one step, checked, and present for every step that policy bars. */
  ghost predicate Granted(s: Start) {
    && (forall i :: i in s.approvals ==> s.recorded <= i < s.end && i in s.checked)
    && (forall i, j :: i in s.approvals && j in s.approvals && i != j ==> s.approvals[i] != s.approvals[j])
    && (forall i :: s.recorded <= i < s.end && i in s.barred ==> i in s.approvals)
  }

  /** Evidence stands that is at most fifteen minutes old. */
  predicate FreshEvidence(before: seq<Event>, r: nat, at: nat) {
    var evidence := StandingEvidence(before, r);
    evidence.Some? && evidence.value <= at <= evidence.value + EVIDENCE_WINDOW
  }

  ghost predicate StartGrounded(before: seq<Event>, r: nat, s: Start, intent: seq<StepIntent>) {
    && s.end == (if s.bootstrap then BootstrapCount(intent) else |intent|)
    && if s.bootstrap then Granted(s)
       else FreshEvidence(before, r, s.at) && forall i :: s.recorded <= i < s.end ==> i !in s.barred
  }

  /** The approval of a step: that of the last bootstrap start, for a bootstrap thread. */
  function ApprovalOf(before: seq<Event>, r: nat, index: nat, bootstrap: bool): Option<nat> {
    var grant := LastGrant(before, r);
    if bootstrap && index in grant then Some(grant[index]) else None
  }

  ghost predicate SubmissionGrounded(before: seq<Event>, e: Event, intent: seq<StepIntent>)
    requires e.StepSubmitted?
  {
    && e.index < |intent|
    && e.thread < |before| && before[e.thread].ThreadStarted? && before[e.thread].run == e.run
    && var bootstrap := before[e.thread].start.bootstrap;
    && e.payload == Configure(intent[e.index].config, ApprovalOf(before, e.run, e.index, bootstrap), false)
    && (e.restricted ==> e.payload.approval.Some?)
    && (e.payload.approval.Some? ==> e.verified)
    && if bootstrap then BootstrapStep(intent[e.index]) else StandingEvidence(before, e.run).Some?
  }

  predicate LinkGrounded(before: seq<Event>, e: Event, intent: seq<StepIntent>)
    requires e.JobLinked?
  {
    && e.index < |intent|
    && e.payload.Configure? && e.payload.config == intent[e.index].config && !e.payload.dryRun
    && (e.restricted ==> e.payload.approval.Some?)
    && FreshEvidence(before, e.run, e.created)
  }

  ghost predicate Grounded(before: seq<Event>, e: Event, runs: seq<Run>) {
    match e
    case ThreadStarted(r, s) => r < |runs| && StartGrounded(before, r, s, runs[r].Intent())
    case StepSubmitted(r, _, _, _, _, _) => r < |runs| && SubmissionGrounded(before, e, runs[r].Intent())
    case JobLinked(r, _, _, _, _, _) => r < |runs| && LinkGrounded(before, e, runs[r].Intent())
    case EvidenceRecorded(r, _, Some(c)) => LastCollection(before, r) == Some(c)
    case _ => true
  }

  ghost predicate AllGrounded(trace: seq<Event>, runs: seq<Run>) {
    trace == []
    || (AllGrounded(trace[..|trace| - 1], runs) && Grounded(trace[..|trace| - 1], trace[|trace| - 1], runs))
  }

  /** Snapshots never change, so grounds stay. */
  predicate SameIntents(runs: seq<Run>, runs': seq<Run>) {
    |runs| <= |runs'| && forall r :: 0 <= r < |runs| ==> runs'[r].snapshot == runs[r].snapshot
  }

  lemma {:induction false} GroundsStay(trace: seq<Event>, runs: seq<Run>, runs': seq<Run>)
    requires AllGrounded(trace, runs) && SameIntents(runs, runs')
    ensures AllGrounded(trace, runs')
  {
    if trace != [] {
      GroundsStay(trace[..|trace| - 1], runs, runs');
      GroundStays(trace[..|trace| - 1], trace[|trace| - 1], runs, runs');
    }
  }

  lemma GroundStays(before: seq<Event>, e: Event, runs: seq<Run>, runs': seq<Run>)
    requires Grounded(before, e, runs) && SameIntents(runs, runs')
    ensures Grounded(before, e, runs')
  {
    if e.run < |runs| {
      assert runs'[e.run].Intent() == runs[e.run].Intent();
    }
  }

  lemma {:induction false} GroundAt(trace: seq<Event>, runs: seq<Run>, p: nat)
    requires AllGrounded(trace, runs) && p < |trace|
    ensures Grounded(trace[..p], trace[p], runs)
  {
    var front := trace[..|trace| - 1];
    if p < |front| {
      GroundAt(front, runs, p);
      assert front[..p] == trace[..p];
    }
  }

  /******* What the stored runs and the threads remember *******/

  /** Approvals and collection mark of a run are those of its last bootstrap start
      and its last collection. */
  ghost predicate Recalled(w: World) {
    forall r: nat ::
      && LastGrant(w.trace, r) == (if r < |w.runs| then w.runs[r].approvals else map[])
      && LastCollection(w.trace, r) == (if r < |w.runs| then w.runs[r].collection else None)
  }

  predicate Known(w: World, worker: Worker) {
    && worker.run < |w.runs| && worker.born < |w.trace|
    && w.trace[worker.born].ThreadStarted? && w.trace[worker.born].run == worker.run
    && w.trace[worker.born].start.bootstrap == worker.bootstrap
  }

  predicate ThreadsKnown(w: World) {
    forall k :: 0 <= k < |w.workers| ==> Known(w, w.workers[k])
  }

  ghost predicate GroundsSound(w: World) {
    Recalled(w) && ThreadsKnown(w) && AllGrounded(w.trace, w.runs)
  }

  /** How a change agrees with what it emits. */
  predicate Remembers(w: World, c: Change)
    requires c.r < |w.runs|
  {
    && |c.emit| <= 1
    && (c.emit != [] ==> c.emit[0].run == c.r)
    && c.run.approvals == (if c.emit != [] && c.emit[0].ThreadStarted? && c.emit[0].start.bootstrap
                           then c.emit[0].start.approvals else w.runs[c.r].approvals)
    && c.run.collection == (if c.emit != [] && c.emit[0].CollectionStarted?
                            then Some(c.emit[0].collection) else w.runs[c.r].collection)
    && (c.emit != [] && c.emit[0].ThreadStarted? ==> c.thread.Spawn?)
    && (c.thread.Spawn? ==>
          c.thread.born == |w.trace| && c.emit != [] && c.emit[0].ThreadStarted? && c.emit[0].start.bootstrap == c.thread.bootstrap)
  }

  lemma SettleRemembers(w: World, a: Action)
    requires Settle(w, a).Some?
    ensures Remembers(w, Settle(w, a).value)
  {
  }

  lemma OrderRemembers(w: World, a: Action)
    requires Order(w, a).Some?
    ensures Remembers(w, Order(w, a).value)
  {
  }

  lemma AdvanceRemembers(w: World, a: Action)
    requires Advance(w, a).Some?
    ensures Remembers(w, Advance(w, a).value)
  {
  }

  lemma DecideRemembers(w: World, a: Action)
    requires Decide(w, a).Some?
    ensures Remembers(w, Decide(w, a).value)
  {
    if Settle(w, a).Some? {
      SettleRemembers(w, a);
    } else if Order(w, a).Some? {
      OrderRemembers(w, a);
    } else {
      AdvanceRemembers(w, a);
    }
  }

  lemma LastAppend(trace: seq<Event>, e: Event, r: nat)
    ensures LastGrant(trace + [e], r) ==
      if e.ThreadStarted? && e.run == r && e.start.bootstrap then e.start.approvals else LastGrant(trace, r)
    ensures LastCollection(trace + [e], r) ==
      if e.CollectionStarted? && e.run == r then Some(e.collection) else LastCollection(trace, r)
  {
    assert (trace + [e])[..|trace|] == trace;
  }

  lemma ChangeKeepsRecalled(w: World, c: Change)
    requires Fits(w, c) && Remembers(w, c) && Recalled(w)
    ensures Recalled(Apply(w, c))
  {
    var w' := Apply(w, c);
    if c.emit == [] {
      assert w'.trace == w.trace;
    } else {
      assert c.emit == [c.emit[0]];
      forall r: nat
        ensures LastGrant(w'.trace, r) == (if r < |w'.runs| then w'.runs[r].approvals else map[])
        ensures LastCollection(w'.trace, r) == (if r < |w'.runs| then w'.runs[r].collection else None)
      {
        LastAppend(w.trace, c.emit[0], r);
      }
    }
  }

  lemma ChangeKeepsThreads(w: World, c: Change)
    requires Fits(w, c) && Remembers(w, c) && ThreadsKnown(w)
    ensures ThreadsKnown(Apply(w, c))
  {
    var w' := Apply(w, c);
    forall k | 0 <= k < |w'.workers| ensures Known(w', w'.workers[k]) {
      if k < |w.workers| {
        assert Known(w, w.workers[k]);
      }
    }
  }

  /******* Every change is grounded *******/

  lemma SettleGrounded(w: World, a: Action)
    requires Recalled(w) && Settle(w, a).Some? && Settle(w, a).value.emit != []
    ensures Grounded(w.trace, Settle(w, a).value.emit[0], w.runs)
  {
  }

  lemma BootstrapStartGrounded(w: World, r: nat, confirmed: bool, barred: set<nat>, approvals: map<nat, nat>, checked: set<nat>)
    requires OnStartBootstrap(w, r, confirmed, barred, approvals, checked).Some?
    ensures Grounded(w.trace, OnStartBootstrap(w, r, confirmed, barred, approvals, checked).value.emit[0], w.runs)
  {
  }

  lemma ConfigurationStartGrounded(w: World, r: nat, confirmed: bool, barred: set<nat>)
    requires Gated(w) && OnStartConfiguration(w, r, confirmed, barred).Some?
    ensures Grounded(w.trace, OnStartConfiguration(w, r, confirmed, barred).value.emit[0], w.runs)
  {
    assert StandingEvidence(w.trace, r) == Shown(w.runs[r]);
  }

  lemma LinkedJobGrounded(w: World, r: nat, j: JobId, restricted: bool)
    requires Gated(w) && OnLinkJob(w, r, j, restricted).Some?
    ensures Grounded(w.trace, OnLinkJob(w, r, j, restricted).value.emit[0], w.runs)
  {
    assert StandingEvidence(w.trace, r) == Shown(w.runs[r]);
  }

  lemma SubmittedGrounded(w: World, k: nat, restricted: bool, verified: bool, accepted: bool, created: bool)
    requires Recalled(w) && ThreadsKnown(w) && Gated(w)
    requires OnWorkerTop(w, k, restricted, verified, accepted, created).Some?
    requires OnWorkerTop(w, k, restricted, verified, accepted, created).value.emit != []
    ensures Grounded(w.trace, OnWorkerTop(w, k, restricted, verified, accepted, created).value.emit[0], w.runs)
  {
    var worker, run := w.workers[k], w.runs[w.workers[k].run];
    assert Known(w, worker) && LastGrant(w.trace, worker.run) == run.approvals;
    assert StandingEvidence(w.trace, worker.run) == Shown(run);
  }

  lemma OrderGrounded(w: World, a: Action)
    requires Gated(w) && Order(w, a).Some? && Order(w, a).value.emit != []
    ensures Grounded(w.trace, Order(w, a).value.emit[0], w.runs)
  {
    match a
    case StartBootstrap(r, confirmed, barred, approvals, checked) =>
      BootstrapStartGrounded(w, r, confirmed, barred, approvals, checked);
    case StartConfiguration(r, confirmed, barred) => ConfigurationStartGrounded(w, r, confirmed, barred);
    case LinkJob(r, j, restricted) => LinkedJobGrounded(w, r, j, restricted);
    case _ =>
  }

  lemma AdvanceGrounded(w: World, a: Action)
    requires Recalled(w) && ThreadsKnown(w) && Gated(w) && Advance(w, a).Some? && Advance(w, a).value.emit != []
    ensures Grounded(w.trace, Advance(w, a).value.emit[0], w.runs)
  {
    if a.WorkerTop? {
      SubmittedGrounded(w, a.worker, a.restricted, a.verified, a.accepted, a.created);
    }
  }

  lemma DecideGrounded(w: World, a: Action)
    requires GroundsSound(w) && Gated(w) && Decide(w, a).Some? && Decide(w, a).value.emit != []
    ensures Grounded(w.trace, Decide(w, a).value.emit[0], w.runs)
  {
    if Settle(w, a).Some? {
      SettleGrounded(w, a);
    } else if Order(w, a).Some? {
      OrderGrounded(w, a);
    } else {
      AdvanceGrounded(w, a);
    }
  }

  lemma ChangeKeepsAllGrounded(w: World, c: Change)
    requires Fits(w, c) && Orderly(w, c) && Remembers(w, c) && AllGrounded(w.trace, w.runs)
    requires c.emit != [] ==> Grounded(w.trace, c.emit[0], w.runs)
    ensures AllGrounded(Apply(w, c).trace, Apply(w, c).runs)
  {
    var w' := Apply(w, c);
    if c.emit == [] {
      assert w'.trace == w.trace;
    } else {
      assert w'.trace[..|w'.trace| - 1] == w.trace;
    }
    GroundsStay(w'.trace, w.runs, w'.runs);
  }

  lemma ChangeKeepsGrounds(w: World, a: Action)
    requires Owned(w) && Gated(w) && GroundsSound(w) && Decide(w, a).Some?
    ensures GroundsSound(Apply(w, Decide(w, a).value))
  {
    var c := Decide(w, a).value;
    DecideIsOrderly(w, a);
    DecideRemembers(w, a);
    if c.emit != [] {
      DecideGrounded(w, a);
    }
    ChangeKeepsRecalled(w, c);
    ChangeKeepsThreads(w, c);
    ChangeKeepsAllGrounded(w, c);
  }

  /** Steps that emit nothing and leave the runs' marks alone. */
  lemma QuietKeepsGrounds(w: World, w': World)
    requires GroundsSound(w) && w'.trace == w.trace && SameIntents(w.runs, w'.runs)
    requires forall r :: 0 <= r < |w.runs| ==>
      w'.runs[r].approvals == w.runs[r].approvals && w'.runs[r].collection == w.runs[r].collection
    requires forall r :: |w.runs| <= r < |w'.runs| ==> w'.runs[r].approvals == map[] && w'.runs[r].collection == None
    requires w'.workers == w.workers || w'.workers == []
    ensures GroundsSound(w')
  {
    GroundsStay(w.trace, w.runs, w'.runs);
    forall k | 0 <= k < |w'.workers| ensures Known(w', w'.workers[k]) {
      assert Known(w, w.workers[k]);
    }
  }

  lemma StepKeepsGrounds(w: World, a: Action)
    requires Owned(w) && Gated(w) && GroundsSound(w)
    ensures GroundsSound(Step(w, a))
  {
    if a.Crash? {
      QuietKeepsGrounds(w, DoCrash(w));
    } else if a.Prepare? {
      QuietKeepsGrounds(w, DoPrepare(w, a.id, a.body, a.undrifted));
    } else if Decide(w, a).Some? {
      ChangeKeepsGrounds(w, a);
    } else {
      ElsewhereKeepsRuns(w, a);
      QuietKeepsGrounds(w, Elsewhere(w, a));
    }
  }

  lemma {:induction false} GroundsStaySound(history: seq<Action>)
    ensures GroundsSound(After(history))
  {
    if history != [] {
      var front, a := history[..|history| - 1], history[|history| - 1];
      EvidenceStaysSound(front);
      GroundsStaySound(front);
      StepKeepsGrounds(After(front), a);
    }
  }

  /******* Every history *******/

  /** Whatever a thread submits is the reviewed configuration of a snapshot step and no
      dry run. A step that is not a bootstrap step is submitted only while health
      evidence stands, by a thread that was started at most fifteen minutes after
      evidence that stood then. */
  lemma StepsNeedFreshEvidence(history: seq<Action>, p: nat)
    requires p < |After(history).trace| && After(history).trace[p].StepSubmitted?
    ensures var w, e := After(history), After(history).trace[p];
      && e.run < |w.runs| && e.index < |w.runs[e.run].Intent()|
      && var step := w.runs[e.run].Intent()[e.index];
      && e.payload.Configure? && e.payload.config == step.config && !e.payload.dryRun
      && e.thread < p && w.trace[e.thread].ThreadStarted? && w.trace[e.thread].run == e.run
      && (!w.trace[e.thread].start.bootstrap || !BootstrapStep(step) ==>
            && StandingEvidence(w.trace[..p], e.run).Some?
            && FreshEvidence(w.trace[..e.thread], e.run, w.trace[e.thread].start.at))
  {
    GroundsStaySound(history);
    SubmissionNeedsEvidence(After(history), p);
  }

  lemma SubmissionNeedsEvidence(w: World, p: nat)
    requires GroundsSound(w) && p < |w.trace| && w.trace[p].StepSubmitted?
    ensures var e := w.trace[p];
      && e.run < |w.runs| && SubmissionGrounded(w.trace[..p], e, w.runs[e.run].Intent())
      && e.thread < p && w.trace[e.thread].ThreadStarted? && w.trace[e.thread].run == e.run
      && var s := w.trace[e.thread].start;
      && StartGrounded(w.trace[..e.thread], e.run, s, w.runs[e.run].Intent())
      && (!s.bootstrap || !BootstrapStep(w.runs[e.run].Intent()[e.index]) ==>
            StandingEvidence(w.trace[..p], e.run).Some? && FreshEvidence(w.trace[..e.thread], e.run, s.at))
  {
    GroundAt(w.trace, w.runs, p);
    var e := w.trace[p];
    assert w.trace[..p][e.thread] == w.trace[e.thread];
    GroundAt(w.trace, w.runs, e.thread);
  }

  /** A step that policy bars is submitted only by a bootstrap thread, as a bootstrap
      step, and under a verified approval that the last bootstrap start of the run
      granted for this very step and for no other. */
  lemma RestrictedStepsAreApproved(history: seq<Action>, p: nat)
    requires p < |After(history).trace| && After(history).trace[p].StepSubmitted? && After(history).trace[p].restricted
    ensures var w, e := After(history), After(history).trace[p];
      && e.run < |w.runs| && e.index < |w.runs[e.run].Intent()| && BootstrapStep(w.runs[e.run].Intent()[e.index])
      && e.thread < p && w.trace[e.thread].ThreadStarted? && w.trace[e.thread].start.bootstrap
      && e.verified && e.payload.Configure?
      && var q := LastStart(w.trace[..p], e.run);
      && q.Some? && q.value < p && w.trace[q.value].ThreadStarted?
      && var s := w.trace[q.value].start;
      && s.recorded <= e.index < s.end && e.index in s.approvals && e.index in s.checked
      && e.payload.approval == Some(s.approvals[e.index])
      && forall i :: i in s.approvals && i != e.index ==> s.approvals[i] != s.approvals[e.index]
  {
    GroundsStaySound(history);
    RestrictedNeedsApproval(After(history), p);
  }

  lemma RestrictedNeedsApproval(w: World, p: nat)
    requires GroundsSound(w) && p < |w.trace| && w.trace[p].StepSubmitted? && w.trace[p].restricted
    ensures var e := w.trace[p];
      && e.run < |w.runs| && SubmissionGrounded(w.trace[..p], e, w.runs[e.run].Intent())
      && e.thread < p && w.trace[e.thread].ThreadStarted? && w.trace[e.thread].start.bootstrap
      && var q := LastStart(w.trace[..p], e.run);
      && q.Some? && q.value < p && w.trace[q.value].ThreadStarted?
      && var s := w.trace[q.value].start;
      && Granted(s) && e.index in s.approvals && e.payload.approval == Some(s.approvals[e.index])
  {
    SubmissionNeedsEvidence(w, p);
    var q := LastStart(w.trace[..p], w.trace[p].run).value;
    assert w.trace[..p][q] == w.trace[q];
    GroundAt(w.trace, w.runs, q);
  }

  /** A direct job is linked to a step only if it ran the step's configuration, no dry
      run, under an approval where policy bars the step, and was submitted at most
      fifteen minutes after evidence that still stands. */
  lemma LinkedJobsAreVerified(history: seq<Action>, p: nat)
    requires p < |After(history).trace| && After(history).trace[p].JobLinked?
    ensures var w, e := After(history), After(history).trace[p];
      && e.run < |w.runs| && LinkGrounded(w.trace[..p], e, w.runs[e.run].Intent())
  {
    GroundsStaySound(history);
    GroundAt(After(history).trace, After(history).runs, p);
  }

  /******* With one live thread per run *******/

  /** A live bootstrap thread is the one that was started last. */
  ghost predicate OwnStarts(w: World) {
    forall k: nat, r: nat :: Live(w, k, r) && w.workers[k].bootstrap ==> LastStart(w.trace, r) == Some(w.workers[k].born)
  }

  ghost predicate OwnGrounded(before: seq<Event>, e: Event, runs: seq<Run>) {
    e.StepSubmitted? && e.run < |runs| && e.thread < |before| && before[e.thread].ThreadStarted? && before[e.thread].start.bootstrap ==>
      LastStart(before, e.run) == Some(e.thread) && e.index < BootstrapCount(runs[e.run].Intent())
  }

  ghost predicate AllOwnGrounded(trace: seq<Event>, runs: seq<Run>) {
    trace == []
    || (AllOwnGrounded(trace[..|trace| - 1], runs) && OwnGrounded(trace[..|trace| - 1], trace[|trace| - 1], runs))
  }

  lemma {:induction false} OwnGroundsStay(trace: seq<Event>, runs: seq<Run>, runs': seq<Run>)
    requires AllOwnGrounded(trace, runs) && AllGrounded(trace, runs) && SameIntents(runs, runs')
    ensures AllOwnGrounded(trace, runs')
  {
    if trace != [] {
      var e := trace[|trace| - 1];
      OwnGroundsStay(trace[..|trace| - 1], runs, runs');
      assert e.StepSubmitted? ==> runs'[e.run].Intent() == runs[e.run].Intent();
    }
  }

  lemma {:induction false} OwnGroundAt(trace: seq<Event>, runs: seq<Run>, p: nat)
    requires AllOwnGrounded(trace, runs) && p < |trace|
    ensures OwnGrounded(trace[..p], trace[p], runs)
  {
    var front := trace[..|trace| - 1];
    if p < |front| {
      OwnGroundAt(front, runs, p);
      assert front[..p] == trace[..p];
    }
  }

  lemma StartAppend(trace: seq<Event>, emit: seq<Event>, r: nat)
    requires |emit| <= 1
    ensures LastStart(trace + emit, r) ==
      if emit != [] && emit[0].ThreadStarted? && emit[0].run == r && emit[0].start.bootstrap then Some(|trace|) else LastStart(trace, r)
  {
    if emit == [] {
      assert trace + emit == trace;
    } else {
      assert (trace + emit)[..|trace|] == trace;
    }
  }

  lemma ChangeKeepsOwnStarts(w: World, c: Change)
    requires Fits(w, c) && Shaped(w, c) && Remembers(w, c) && OwnStarts(w) && OneThread(Apply(w, c))
    ensures OwnStarts(Apply(w, c))
  {
    var w' := Apply(w, c);
    forall k: nat, r: nat | Live(w', k, r) && w'.workers[k].bootstrap
      ensures LastStart(w'.trace, r) == Some(w'.workers[k].born)
    {
      StartAppend(w.trace, c.emit, r);
      if k < |w.workers| {
        assert Live(w, k, r);
        if c.thread.Spawn? && r == c.r {
          assert Live(w', |w.workers|, r);
        }
      }
    }
  }

  lemma ChangeKeepsOwnGrounds(w: World, c: Change)
    requires Fits(w, c) && Shaped(w, c) && Orderly(w, c) && Remembers(w, c)
    requires ThreadsKnown(w) && OwnStarts(w) && AllOwnGrounded(w.trace, w.runs) && AllGrounded(w.trace, w.runs)
    requires Placed(w.runs[c.r])
    ensures AllOwnGrounded(Apply(w, c).trace, Apply(w, c).runs)
  {
    var w' := Apply(w, c);
    OwnGroundsStay(w.trace, w.runs, w'.runs);
    if c.emit == [] {
      assert w'.trace == w.trace;
    } else {
      assert w'.trace[..|w'.trace| - 1] == w.trace;
      if Submitted(w, c) {
        assert Known(w, w.workers[c.thread.worker]) && Live(w, c.thread.worker, c.r);
      }
    }
  }

  ghost predicate OwnSound(w: World) {
    OwnStarts(w) && AllOwnGrounded(w.trace, w.runs)
  }

  lemma DecideKeepsOwn(w: World, a: Action)
    requires PrefixSound(w) && GroundsSound(w) && OwnSound(w) && Decide(w, a).Some?
    requires OneThread(Apply(w, Decide(w, a).value))
    ensures OwnSound(Apply(w, Decide(w, a).value))
  {
    var c := Decide(w, a).value;
    DecideIsOrderly(w, a);
    DecideShape(w, a);
    DecideRemembers(w, a);
    ChangeKeepsOwnStarts(w, c);
    assert Placed(w.runs[c.r]);
    ChangeKeepsOwnGrounds(w, c);
  }

  lemma QuietKeepsOwn(w: World, w': World)
    requires GroundsSound(w) && OwnSound(w) && w'.trace == w.trace && SameIntents(w.runs, w'.runs)
    requires w'.workers == w.workers || w'.workers == []
    ensures OwnSound(w')
  {
    OwnGroundsStay(w.trace, w.runs, w'.runs);
    forall k: nat, r: nat | Live(w', k, r) ensures Live(w, k, r) {
    }
  }

  lemma StepKeepsOwn(w: World, a: Action)
    requires PrefixSound(w) && GroundsSound(w) && OwnSound(w) && OneThread(Step(w, a))
    ensures OwnSound(Step(w, a))
  {
    if a.Crash? {
      QuietKeepsOwn(w, DoCrash(w));
    } else if a.Prepare? {
      QuietKeepsOwn(w, DoPrepare(w, a.id, a.body, a.undrifted));
    } else if Decide(w, a).Some? {
      DecideKeepsOwn(w, a);
    } else {
      ElsewhereKeepsRuns(w, a);
      QuietKeepsOwn(w, Elsewhere(w, a));
    }
  }

  lemma {:induction false} OwnStaysSound(history: seq<Action>)
    requires AlwaysOneThread(history)
    ensures OwnSound(After(history))
  {
    if history != [] {
      var front, a := history[..|history| - 1], history[|history| - 1];
      PrefixStaysSound(front);
      GroundsStaySound(front);
      OwnStaysSound(front);
      StepKeepsOwn(After(front), a);
    }
  }

  /** With one live thread per run a step past the bootstrap prefix is submitted only by
      a thread that was started at most fifteen minutes after standing evidence, and
      a bootstrap thread submits under the approvals of its own start. */
  lemma ThreadsActOnTheirOwnStart(history: seq<Action>, p: nat)
    requires AlwaysOneThread(history)
    requires p < |After(history).trace| && After(history).trace[p].StepSubmitted?
    ensures var w, e := After(history), After(history).trace[p];
      && e.run < |w.runs| && e.thread < p && w.trace[e.thread].ThreadStarted? && e.payload.Configure?
      && var s := w.trace[e.thread].start;
      && (e.index >= BootstrapCount(w.runs[e.run].Intent()) ==>
            !s.bootstrap && !e.restricted && FreshEvidence(w.trace[..e.thread], e.run, s.at))
      && e.payload.approval == if s.bootstrap && e.index in s.approvals then Some(s.approvals[e.index]) else None
  {
    GroundsStaySound(history);
    OwnStaysSound(history);
    OwnSubmission(After(history), p);
  }

  lemma OwnSubmission(w: World, p: nat)
    requires GroundsSound(w) && OwnSound(w) && p < |w.trace| && w.trace[p].StepSubmitted?
    ensures var e := w.trace[p];
      && e.run < |w.runs| && e.thread < p && w.trace[e.thread].ThreadStarted? && e.payload.Configure?
      && var s := w.trace[e.thread].start;
      && (e.index >= BootstrapCount(w.runs[e.run].Intent()) ==>
            !s.bootstrap && !e.restricted && FreshEvidence(w.trace[..e.thread], e.run, s.at))
      && e.payload.approval == if s.bootstrap && e.index in s.approvals then Some(s.approvals[e.index]) else None
  {
    SubmissionNeedsEvidence(w, p);
    OwnGroundAt(w.trace, w.runs, p);
  }

  /******* Which reads evidence rests on *******/

  /** Evidence from a collection rests on the reads of the collection that was started
      last for its run. */
  lemma EvidenceIsFromTheLastReads(history: seq<Action>, p: nat)
    requires p < |After(history).trace|
    requires After(history).trace[p].EvidenceRecorded? && After(history).trace[p].source.Some?
    ensures var trace, e := After(history).trace, After(history).trace[p];
      exists q :: 0 <= q < p && trace[q] == CollectionStarted(e.run, e.source.value)
                  && forall m :: q < m < p && trace[m].CollectionStarted? ==> trace[m].run != e.run
  {
    GroundsStaySound(history);
    LastReadsOf(After(history), p);
  }

  lemma LastReadsOf(w: World, p: nat)
    requires GroundsSound(w) && p < |w.trace| && w.trace[p].EvidenceRecorded? && w.trace[p].source.Some?
    ensures var e := w.trace[p];
      exists q :: 0 <= q < p && w.trace[q] == CollectionStarted(e.run, e.source.value)
                  && forall m :: q < m < p && w.trace[m].CollectionStarted? ==> w.trace[m].run != e.run
  {
    GroundAt(w.trace, w.runs, p);
    var before := w.trace[..p];
    var q := LastReads(before, w.trace[p].run).value;
    assert before[q] == w.trace[q];
    assert forall m :: q < m < p ==> before[m] == w.trace[m];
  }

  /** A passed collection counts if and only if it is the last one of its run and the
      run awaits health. Whether the run was reconciled since is not asked. */
  lemma CollectionCountsIff(history: seq<Action>, c: Collector)
    requires c in After(history).collectors && After(history).held.Free? && c.run < |After(history).runs|
    ensures var w := After(history);
      OnCollectEnd(w, c, true).Some?
      && (OnCollectEnd(w, c, true).value.emit == [EvidenceRecorded(c.run, w.now, Some(c.collection))] <==>
            LastCollection(w.trace, c.run) == Some(c.collection) && w.runs[c.run].status.AwaitingHealth?)
  {
    GroundsStaySound(history);
    CountsIff(After(history), c);
  }

  lemma CountsIff(w: World, c: Collector)
    requires Recalled(w) && c in w.collectors && w.held.Free? && c.run < |w.runs|
    ensures OnCollectEnd(w, c, true).Some?
    ensures OnCollectEnd(w, c, true).value.emit == [EvidenceRecorded(c.run, w.now, Some(c.collection))] <==>
            LastCollection(w.trace, c.run) == Some(c.collection) && w.runs[c.run].status.AwaitingHealth?
  {
    assert LastCollection(w.trace, c.run) == w.runs[c.run].collection;
  }

  /** A run after its orchestration was stopped. */
  function Stopped(w: World, r: nat): World
    requires r < |w.runs|
  {
    w.(runs := w.runs[r := w.runs[r].(status := NeedsReconciliation)],
       jobs := CancelJob(CancelJob(w.jobs, w.runs[r].deploymentJob), w.runs[r].currentJob))
  }

  lemma StopStops(w: World, r: nat)
    requires w.held.Free? && r < |w.runs| && Active(w.runs[r].status)
    ensures Step(w, Stop(r, true)) == Stopped(w, r)
  {
    assert OnStop(w, r, true).Some?;
  }

  ghost predicate MayResume(w: World, r: nat)
    requires r < |w.runs|
  {
    JobIdle(w, w.runs[r].deploymentJob) && JobIdle(w, w.runs[r].currentJob) && Resumable(w, w.runs[r])
  }

  lemma ResumeResumes(w: World, r: nat)
    requires w.held.Free? && r < |w.runs| && w.runs[r].status.NeedsReconciliation?
    ensures var w' := Step(w, Reconcile(r, true, true));
      if !MayResume(w, r) then w' == w
      else
        && w'.held.Free? && w'.collectors == w.collectors && |w'.runs| == |w.runs|
        && w'.trace == w.trace + [Reconciled(r, true)] && w'.now == w.now && w'.runs[r].collection == w.runs[r].collection
        && (w'.runs[r].status.AwaitingHealth? <==> |w.runs[r].steps| >= BootstrapCount(w.runs[r].Intent()))
  {
    if MayResume(w, r) {
      assert OnReconcile(w, r, true, true).Some?;
    } else {
      assert OnReconcile(w, r, true, true).None?;
    }
  }

  lemma EndEnds(w: World, c: Collector)
    requires w.held.Free? && c in w.collectors && c.run < |w.runs| && w.runs[c.run].collection == Some(c.collection)
    ensures Step(w, CollectEnd(c, true)).trace ==
      w.trace + if w.runs[c.run].status.AwaitingHealth? then [EvidenceRecorded(c.run, w.now, Some(c.collection))] else []
  {
    assert OnCollectEnd(w, c, true).Some?;
  }

  /** So evidence can rest on reads from before the last reconciliation: stopped and
      resumed while its reads are under way, a run takes their result as evidence if
      and only if the stop left its jobs idle, the resume was allowed, and the
      bootstrap steps were recorded. */
  lemma ReadsOutliveReconciliationIff(w: World, c: Collector)
    requires w.held.Free? && c in w.collectors && c.run < |w.runs|
    requires w.runs[c.run].status.AwaitingHealth? && w.runs[c.run].collection == Some(c.collection)
    ensures var w' := Step(Step(Step(w, Stop(c.run, true)), Reconcile(c.run, true, true)), CollectEnd(c, true));
      w'.trace == w.trace + [Reconciled(c.run, true), EvidenceRecorded(c.run, w.now, Some(c.collection))]
      <==> MayResume(Stopped(w, c.run), c.run) && |w.runs[c.run].steps| >= BootstrapCount(w.runs[c.run].Intent())
  {
    var w1 := Stopped(w, c.run);
    StopStops(w, c.run);
    ResumeResumes(w1, c.run);
    EndEnds(Step(w1, Reconcile(c.run, true, true)), c);
  }
}
