/**
 Profiles and their runs, over every history: a run never loses its profile, an
 archived profile has no open run, an open run executes its profile's current
 revision, and the revisions of a profile in use are append-only.
 */
module RecoveryLifecycle {
  import opened Prelude
  import opened RecoveryIntent
  import opened RecoverySteps
  import opened RecoveryOwnership

  ghost predicate SameBaseline(a: Revision, b: Revision) {
    a.body == b.body && a.number == b.number
  }

  ghost predicate Numbered(p: Profile) {
    p.revisions != [] && forall v :: 0 <= v < |p.revisions| ==> p.revisions[v].number == v + 1
  }

  /** The run's profile exists; while the run is open the profile is in use at the
      very revision the run executes, and is not archived. */
  ghost predicate Rooted(w: World, run: Run) {
    && run.profile in w.profiles
    && Numbered(w.profiles[run.profile])
    && (!Closed(run.status) ==>
          && SameBaseline(run.snapshot, LastRevision(w.profiles[run.profile]))
          && !w.profiles[run.profile].archived)
  }

  ghost predicate LifecycleSound(w: World) {
    && (forall p :: p in w.profiles ==> Numbered(w.profiles[p]))
    && (forall r :: 0 <= r < |w.runs| ==> Rooted(w, w.runs[r]))
  }

  /** `later` keeps every baseline of `earlier`; review marks may change. */
  ghost predicate Extends(earlier: Profile, later: Profile) {
    && |earlier.revisions| <= |later.revisions|
    && forall v :: 0 <= v < |earlier.revisions| ==> SameBaseline(earlier.revisions[v], later.revisions[v])
  }

  lemma ElsewhereKeepsLifecycle(w: World, a: Action)
    requires LifecycleSound(w)
    ensures LifecycleSound(Elsewhere(w, a))
    ensures forall r :: 0 <= r < |w.runs| ==> w.runs[r].profile in Elsewhere(w, a).profiles
    ensures forall p :: p in w.profiles && p in Elsewhere(w, a).profiles ==> Extends(w.profiles[p], Elsewhere(w, a).profiles[p])
  {
    match a
    case SaveProfile(id, _, _, _, _, _, _, _) => SaveKeepsLifecycle(w, a);
    case Approve(_, _) => ApproveKeepsLifecycle(w, a);
    case Archive(id, confirmed) => ArchiveKeepsLifecycle(w, id, confirmed);
    case Restore(id, confirmed) => ArchiveKeepsLifecycle(w, id, confirmed);
    case Delete(id, confirmed, unreferenced) => DeleteKeepsLifecycle(w, id, confirmed, unreferenced);
    case _ => OtherKeepsLifecycle(w, a);
  }

  lemma OtherKeepsLifecycle(w: World, a: Action)
    requires !a.SaveProfile? && !a.Approve? && !a.Archive? && !a.Restore? && !a.Delete?
    ensures Elsewhere(w, a).profiles == w.profiles && Elsewhere(w, a).runs == w.runs
  {
  }

  lemma SaveKeepsLifecycle(w: World, a: Action)
    requires LifecycleSound(w) && a.SaveProfile?
    ensures var w' := Elsewhere(w, a);
      LifecycleSound(w') && w'.runs == w.runs
      && forall p :: p in w.profiles ==> p in w'.profiles && Extends(w.profiles[p], w'.profiles[p])
  {
    var w' := Elsewhere(w, a);
    if w' != w {
      assert Numbered(w'.profiles[a.id]);
      forall r | 0 <= r < |w.runs| ensures Rooted(w', w.runs[r]) {
        assert Rooted(w, w.runs[r]);
      }
    }
  }

  /** Replacing a profile by one with the same baselines, archived only when no run
      of it is open, keeps the invariant. */
  lemma ReplaceKeepsLifecycle(w: World, w': World, id: nat, p: Profile)
    requires LifecycleSound(w) && id in w.profiles && w' == w.(profiles := w.profiles[id := p])
    requires |p.revisions| == |w.profiles[id].revisions| && Extends(w.profiles[id], p)
    requires p.archived ==> !Blocked(w.runs, id)
    ensures LifecycleSound(w')
  {
    assert Numbered(w.profiles[id]);
    forall r | 0 <= r < |w.runs| ensures Rooted(w', w.runs[r]) {
      assert Rooted(w, w.runs[r]);
    }
  }

  lemma ApproveKeepsLifecycle(w: World, a: Action)
    requires LifecycleSound(w) && a.Approve?
    ensures var w' := DoApprove(w, a.id, a.body);
      LifecycleSound(w') && w'.runs == w.runs
      && forall p :: p in w.profiles ==> p in w'.profiles && Extends(w.profiles[p], w'.profiles[p])
  {
    var w' := DoApprove(w, a.id, a.body);
    if w' != w {
      ReplaceKeepsLifecycle(w, w', a.id, w'.profiles[a.id]);
    }
  }

  lemma ArchiveKeepsLifecycle(w: World, id: nat, confirmed: bool)
    requires LifecycleSound(w)
    ensures LifecycleSound(DoArchive(w, id, confirmed)) && LifecycleSound(DoRestore(w, id, confirmed))
  {
    if id in w.profiles && !Blocked(w.runs, id) {
      var p := w.profiles[id];
      ReplaceKeepsLifecycle(w, w.(profiles := w.profiles[id := p.(archived := true)]), id, p.(archived := true));
      ReplaceKeepsLifecycle(w, w.(profiles := w.profiles[id := p.(archived := false)]), id, p.(archived := false));
    }
  }

  lemma DeleteKeepsLifecycle(w: World, id: nat, confirmed: bool, unreferenced: bool)
    requires LifecycleSound(w)
    ensures var w' := DoDelete(w, id, confirmed, unreferenced);
      LifecycleSound(w') && forall r :: 0 <= r < |w.runs| ==> w.runs[r].profile in w'.profiles
  {
    var w' := DoDelete(w, id, confirmed, unreferenced);
    forall r | 0 <= r < |w.runs| ensures Rooted(w', w.runs[r]) {
      assert Rooted(w, w.runs[r]);
    }
  }

  lemma ChangeKeepsLifecycle(w: World, c: Change)
    requires LifecycleSound(w) && Fits(w, c) && Orderly(w, c)
    ensures LifecycleSound(Apply(w, c))
  {
    forall r | 0 <= r < |w.runs| ensures Rooted(Apply(w, c), Apply(w, c).runs[r]) {
      assert Rooted(w, w.runs[r]);
    }
  }

  lemma StepKeepsLifecycle(w: World, a: Action)
    requires HeldSound(w) && LifecycleSound(w)
    ensures LifecycleSound(Step(w, a))
    ensures forall r :: 0 <= r < |w.runs| ==>
      && r < |Step(w, a).runs| && Step(w, a).runs[r].profile == w.runs[r].profile
      && w.runs[r].profile in Step(w, a).profiles
    ensures forall p :: p in w.profiles && p in Step(w, a).profiles ==> Extends(w.profiles[p], Step(w, a).profiles[p])
  {
    forall r | 0 <= r < |w.runs| ensures Rooted(w, w.runs[r]) {
    }
    if a.Crash? {
      CrashKeepsLifecycle(w);
    } else if a.Prepare? {
      PrepareKeepsLifecycle(w, a.id, a.body, a.undrifted);
    } else if Decide(w, a).Some? {
      DecideIsOrderly(w, a);
      ChangeKeepsLifecycle(w, Decide(w, a).value);
    } else {
      ElsewhereKeepsRuns(w, a);
      ElsewhereKeepsLifecycle(w, a);
    }
  }

  lemma CrashKeepsLifecycle(w: World)
    requires LifecycleSound(w)
    ensures LifecycleSound(DoCrash(w))
  {
    forall r | 0 <= r < |w.runs| ensures Rooted(DoCrash(w), DoCrash(w).runs[r]) {
      assert Rooted(w, w.runs[r]);
    }
  }

  lemma PrepareKeepsLifecycle(w: World, id: nat, body: Body, undrifted: bool)
    requires LifecycleSound(w)
    ensures LifecycleSound(DoPrepare(w, id, body, undrifted))
  {
    var w' := DoPrepare(w, id, body, undrifted);
    forall r | 0 <= r < |w.runs| ensures Rooted(w', w'.runs[r]) {
      assert Rooted(w, w.runs[r]);
    }
  }

  lemma {:induction false} LifecycleStaysSound(history: seq<Action>)
    ensures LifecycleSound(After(history))
  {
    if history != [] {
      LifecycleStaysSound(history[..|history| - 1]);
      OwnershipStaysSound(history[..|history| - 1]);
      StepKeepsLifecycle(After(history[..|history| - 1]), history[|history| - 1]);
    }
  }

  /** In every reachable state each run's profile exists, and an open run executes
      the current revision of a profile that is not archived. */
  lemma RunsKeepTheirProfile(history: seq<Action>, r: nat)
    requires r < |After(history).runs|
    ensures var w, run := After(history), After(history).runs[r];
      && run.profile in w.profiles && w.profiles[run.profile].revisions != []
      && (!Closed(run.status) ==>
            && !w.profiles[run.profile].archived
            && run.snapshot.body == LastRevision(w.profiles[run.profile]).body
            && run.snapshot.number == |w.profiles[run.profile].revisions|)
  {
    LifecycleStaysSound(history);
    RootedAtLast(After(history), r);
  }

  lemma RootedAtLast(w: World, r: nat)
    requires LifecycleSound(w) && r < |w.runs|
    ensures Rooted(w, w.runs[r]) && LastRevision(w.profiles[w.runs[r].profile]).number == |w.profiles[w.runs[r].profile].revisions|
  {
    assert Rooted(w, w.runs[r]);
  }

  /** The profile exists at every moment of the history from the `k`-th on. */
  ghost predicate Present(history: seq<Action>, k: nat, p: nat)
    requires k <= |history|
  {
    p in After(history).profiles && (k == |history| || Present(history[..|history| - 1], k, p))
  }

  /** A profile that has a run is never deleted, and the run keeps it. */
  lemma {:induction false} UsedProfilesStay(history: seq<Action>, k: nat, r: nat)
    requires k <= |history| && r < |After(history[..k]).runs|
    ensures r < |After(history).runs| && After(history).runs[r].profile == After(history[..k]).runs[r].profile
    ensures Present(history, k, After(history[..k]).runs[r].profile)
  {
    LifecycleStaysSound(history);
    if k == |history| {
      assert history[..k] == history;
    } else {
      var front, a := history[..|history| - 1], history[|history| - 1];
      assert front[..k] == history[..k];
      UsedProfilesStay(front, k, r);
      LifecycleStaysSound(front);
      OwnershipStaysSound(front);
      StepKeepsLifecycle(After(front), a);
    }
    assert Rooted(After(history), After(history).runs[r]);
  }

  /** From any moment on, as long as a profile is not deleted, its revisions only grow
      and keep what was captured; with a run it is never deleted. */
  lemma {:induction false} BaselinesAreAppendOnly(history: seq<Action>, k: nat, p: nat)
    requires k <= |history| && Present(history, k, p)
    ensures p in After(history[..k]).profiles && p in After(history).profiles
    ensures Extends(After(history[..k]).profiles[p], After(history).profiles[p])
  {
    if k == |history| {
      assert history[..k] == history;
    } else {
      var front, a := history[..|history| - 1], history[|history| - 1];
      assert front[..k] == history[..k];
      BaselinesAreAppendOnly(front, k, p);
      LifecycleStaysSound(front);
      OwnershipStaysSound(front);
      StepKeepsLifecycle(After(front), a);
    }
  }

  /** So once a profile has a run, its baselines only grow, to the end of any history. */
  lemma UsedBaselinesAreAppendOnly(history: seq<Action>, k: nat, r: nat)
    requires k <= |history| && r < |After(history[..k]).runs|
    ensures var earlier, later := After(history[..k]), After(history);
      && r < |later.runs| && later.runs[r].profile == earlier.runs[r].profile
      && earlier.runs[r].profile in earlier.profiles && earlier.runs[r].profile in later.profiles
      && Extends(earlier.profiles[earlier.runs[r].profile], later.profiles[earlier.runs[r].profile])
  {
    UsedProfilesStay(history, k, r);
    BaselinesAreAppendOnly(history, k, After(history[..k]).runs[r].profile);
  }
}
