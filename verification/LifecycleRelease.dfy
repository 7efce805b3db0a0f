/**
  The release of an environment that was ever bound: when CleanupComplete was persisted before its
  finalizer goes, and when its work was cleaned up.
 */
module LifecycleRelease {
  import opened Wrappers
  import opened Lifecycle
  import opened LifecycleSafety
  import opened LifecycleTheorems

  predicate EverBound(versions: seq<Env>) {
    exists i | 0 <= i < |versions| :: versions[i].bound
  }

  predicate EverCompleted(versions: seq<Env>) {
    exists i | 0 <= i < |versions| :: versions[i].cleanup
  }

  /** From version `from` on, the finalizer of an environment that was bound goes only after
      CleanupComplete was there. */
  ghost predicate InOrder(versions: seq<Env>, from: nat) {
    forall i | from <= i < |versions| - 1 :: OrderlyAt(versions, i)
  }

  predicate OrderlyAt(versions: seq<Env>, i: nat)
    requires i + 1 < |versions|
  {
    versions[i].finalizer && !versions[i + 1].finalizer && EverBound(versions[..i + 1]) ==>
        EverCompleted(versions[..i + 1])
  }

  /** The patch that removes the finalizer is about to land. */
  predicate Releases(s: State, a: Action) {
    a.Release? && !s.gone && Reading(s) && s.pass.value.stage.Releasing?
  }

  /** It comes from a pass that read no bound flag, although there was one, and CleanupComplete
      was never there. */
  predicate Slips(s: State, a: Action)
    requires s.versions != []
  {
    && Releases(s, a) && Current(s).finalizer
    && !ReadBy(s).bound && EverBound(s.versions) && !EverCompleted(s.versions)
  }

  // ---- one step ---------------------------------------------------------------------------------

  /** What follows on version c when no pass releases. */
  predicate KeepsFinalizer(s: State, t: State) {
    s.versions != [] && t.versions != [] && (Current(s).finalizer ==> Current(t).finalizer)
  }

  lemma SurroundingsKeepFinalizer(s: State, a: Action)
    requires s.versions != []
    ensures KeepsFinalizer(s, Surroundings(s, a))
  {
  }

  lemma LandingKeepsFinalizer(s: State, p: Pass)
    requires Reading(s) && s.pass == Some(p) && p.stage.Patching? && PatchSound(ReadBy(s), p.stage.env)
    ensures KeepsFinalizer(s, LandCall(s, p, ReadBy(s), p.stage.env))
  {
    hide IsLength;
  }

  lemma PassKeepsFinalizer(me: string, s: State, p: Pass, r: Env, a: Action)
    requires s.versions != [] && !a.Land? && !(a.Release? && p.stage.Releasing?)
    ensures KeepsFinalizer(s, PassStep(me, s, p, r, a))
  {
    hide LookUpCall, CreateCall, DeleteCall, CleanUpCall, Decision, ReleaseCall, Surroundings, Deletion, LandCall;
    if Thinks(a) {
      hide PassStep;
      ThinkingIsQuiet(me, s, p, r, a);
    } else if a.Expire? {
      SurroundingsKeepFinalizer(s, UserDelete);
      assert Deletion(s) == Surroundings(s, UserDelete) by { DeletionIsSurroundings(s); }
    } else {
      SurroundingsKeepFinalizer(s, a);
    }
  }

  lemma DeletionIsSurroundings(s: State)
    requires s.versions != []
    ensures Deletion(s) == Surroundings(s, UserDelete)
  {
  }

  lemma OnlyReleasesRemove(me: string, s: State, a: Action)
    requires Inv(me, s) && !Releases(s, a)
    ensures KeepsFinalizer(s, Apply(me, s, a))
  {
    hide Inv, PatchSound, LandCall, Surroundings, PassStep;
    LandingIsSound(me, s, a);
    if Landing(s, a) {
      LandingIsLand(me, s, s.pass.value, a);
      LandingKeepsFinalizer(s, s.pass.value);
    } else if a.Begin? {
    } else if Reading(s) && !a.Land? && !(a.Release? && s.pass.value.stage.Releasing?) {
      PassKeepsFinalizer(me, s, s.pass.value, ReadBy(s), a);
    } else if Reading(s) {
      QuietEnd(me, s, s.pass.value, ReadBy(s), a);
    } else {
      SurroundingsKeepFinalizer(s, a);
    }
  }

  /** A patch without a stage for it, or for an object that is gone. */
  lemma QuietEnd(me: string, s: State, p: Pass, r: Env, a: Action)
    requires s.versions != [] && ((a.Land? && !p.stage.Patching?) || (a.Release? && s.gone))
    ensures PassStep(me, s, p, r, a).versions == s.versions
  {
  }

  lemma ReleasePushes(me: string, s: State, a: Action)
    requires s.versions != [] && Releases(s, a)
    ensures Apply(me, s, a).versions == s.versions + [Current(s).(finalizer := false)]
  {
  }

  /** A pass that releases on the word of a bound version read its CleanupComplete. */
  lemma ReadIsCompleted(me: string, s: State, a: Action)
    requires Inv(me, s) && Releases(s, a) && ReadBy(s).bound
    ensures EverCompleted(s.versions)
  {
    ReleasingIsSound(me, s, s.pass.value);
    hide Inv, History;
    assert s.versions[s.pass.value.read].cleanup;
  }

  /** A release that lands on an environment that is bound, or was, finds CleanupComplete never
      persisted exactly when its pass read no bound flag, and no version has CleanupComplete. */
  lemma ReleaseSlipsExactlyWhen(me: string, s: State, a: Action)
    requires Inv(me, s) && Releases(s, a)
    ensures s.versions != [] && Apply(me, s, a).versions == s.versions + [Current(s).(finalizer := false)]
    ensures (Current(s).bound ==> EverBound(s.versions))
    ensures EverBound(s.versions) && !EverCompleted(s.versions) && Current(s).finalizer <==> Slips(s, a)
  {
    LandingIsSound(me, s, a);
    hide Inv, EverBound, EverCompleted;
    ReleasePushes(me, s, a);
    if ReadBy(s).bound { ReadIsCompleted(me, s, a); }
    if Current(s).bound { CurrentEverBound(s); }
  }

  lemma CurrentEverBound(s: State)
    requires s.versions != [] && Current(s).bound
    ensures EverBound(s.versions)
  {
  }

  // ---- over runs ----------------------------------------------------------------------------------

  /** One version more at most: only the last pair counts. */
  lemma InOrderStep(before: seq<Env>, after: seq<Env>)
    requires before != [] && before <= after && |after| <= |before| + 1
    ensures InOrder(after, |before| - 1) <==>
            (before[|before| - 1].finalizer && !after[|after| - 1].finalizer && EverBound(before) ==>
             EverCompleted(before))
  {
    hide EverBound, EverCompleted;
    if |after| == |before| + 1 {
      assert after[..|before|] == before && after[|before| - 1] == before[|before| - 1];
      assert InOrder(after, |before| - 1) <==> OrderlyAt(after, |before| - 1);
    }
  }

  lemma InOrderJoins(mid: seq<Env>, versions: seq<Env>, from: nat)
    requires mid != [] && mid <= versions && from < |mid|
    ensures InOrder(versions, from) <==> InOrder(mid, from) && InOrder(versions, |mid| - 1)
  {
    forall i: nat | i < |mid| - 1 ensures OrderlyAt(versions, i) <==> OrderlyAt(mid, i) {
      assert versions[..i + 1] == mid[..i + 1] && versions[i] == mid[i] && versions[i + 1] == mid[i + 1];
    }
    hide OrderlyAt;
  }

  lemma StepIsInOrder(me: string, s: State, a: Action)
    requires Inv(me, s)
    ensures s.versions != [] && s.versions <= Apply(me, s, a).versions
    ensures InOrder(Apply(me, s, a).versions, |s.versions| - 1) <==> !Slips(s, a)
  {
    hide Inv, Apply, InOrder, EverBound, EverCompleted;
    LandingIsSound(me, s, a);
    VersionsGrow(me, s, a);
    InOrderStep(s.versions, Apply(me, s, a).versions);
    if Releases(s, a) { ReleaseSlipsExactlyWhen(me, s, a); } else { OnlyReleasesRemove(me, s, a); }
  }

  ghost predicate NeverSlips(me: string, s: State, run: seq<Action>)
    requires s.versions != []
    decreases |run|
  {
    run == []
    || (!Slips(s, run[0]) && Apply(me, s, run[0]).versions != [] && NeverSlips(me, Apply(me, s, run[0]), run[1..]))
  }

  /** Over any run: the finalizer of an environment that was ever bound goes only after
      CleanupComplete was persisted, exactly when no release comes from a pass that read no bound
      flag while CleanupComplete was never there. */
  lemma {:induction false} InOrderExactlyWhen(me: string, s: State, run: seq<Action>)
    requires Inv(me, s)
    ensures s.versions != [] && s.versions <= Execute(me, s, run).versions
    ensures InOrder(Execute(me, s, run).versions, |s.versions| - 1) <==> NeverSlips(me, s, run)
    decreases |run|
  {
    LandingIsSound(me, s, Crash);
    hide Inv, InOrder, Apply, Slips;
    if run == [] {
      InOrderStep(s.versions, s.versions);
    } else {
      var t := Apply(me, s, run[0]);
      StepIsInOrder(me, s, run[0]);
      StepKeepsInv(me, s, run[0]);
      InOrderExactlyWhen(me, t, run[1..]);
      InOrderJoins(t.versions, Execute(me, s, run).versions, |s.versions| - 1);
    }
  }

  // ---- without a loss -------------------------------------------------------------------------------

  predicate Root(versions: seq<Env>, j: nat, k: nat) {
    k <= j < |versions| && versions[k].bound && !versions[k].deleting
  }

  ghost predicate HasRoot(versions: seq<Env>, j: nat) {
    exists k: nat :: Root(versions, j, k)
  }

  /** A bound flag of an environment that is being deleted was there before the deletion. */
  ghost predicate Rooted(versions: seq<Env>) {
    forall j: nat | j < |versions| && versions[j].bound :: HasRoot(versions, j)
  }

  lemma RootCarries(before: seq<Env>, after: seq<Env>, i: nat, j: nat)
    requires HasRoot(before, i) && before <= after && i <= j < |after|
    ensures HasRoot(after, j)
  {
    var k: nat :| Root(before, i, k);
    assert after[k] == before[k];
    assert Root(after, j, k);
  }

  /** A new version that is bound has a root when it is not being deleted itself, or some version
      before it was bound. */
  lemma RootedGrows(before: seq<Env>, after: seq<Env>, from: nat)
    requires Rooted(before) && before != [] && before <= after && |after| <= |before| + 1
    requires var e := after[|after| - 1];
      e.bound ==> !e.deleting || (from < |before| && before[from].bound)
    ensures Rooted(after)
  {
    hide HasRoot, Root;
    forall j: nat | j < |after| && after[j].bound ensures HasRoot(after, j) {
      if j < |before| {
        RootCarries(before, after, j, j);
      } else if !after[j].deleting {
        OwnRoot(after, j);
      } else {
        RootCarries(before, after, from, j);
      }
    }
  }

  lemma OwnRoot(versions: seq<Env>, j: nat)
    requires j < |versions| && versions[j].bound && !versions[j].deleting
    ensures HasRoot(versions, j)
  {
    assert Root(versions, j, j);
  }

  lemma LandedFlag(s: State, p: Pass)
    requires Reading(s) && s.pass == Some(p) && p.stage.Patching? && PatchSound(ReadBy(s), p.stage.env)
    ensures var t := LandCall(s, p, ReadBy(s), p.stage.env);
      t.versions != [] && (Current(t).bound && Current(t).deleting ==> Current(s).bound || ReadBy(s).bound)
  {
    hide IsLength;
  }

  lemma StepIsRooted(me: string, s: State, a: Action)
    requires Inv(me, s) && Rooted(s.versions)
    ensures Rooted(Apply(me, s, a).versions)
  {
    hide Inv, Rooted, PatchSound, LandCall, Apply;
    LandingIsSound(me, s, a);
    OnlyPatchesChange(me, s, a);
    if Landing(s, a) { LandedFlag(s, s.pass.value); }
    var from := if !Current(s).bound && Landing(s, a) then s.pass.value.read else |s.versions| - 1;
    RootedGrows(s.versions, Apply(me, s, a).versions, from);
  }

  /** When flags persist, a pass that releases knows whether the environment was ever bound. */
  lemma PersistentNeverSlips(me: string, s: State, a: Action)
    requires Inv(me, s) && Rooted(s.versions) && Persistent(s.versions, 0)
    ensures s.versions != [] && !Slips(s, a)
  {
    LandingIsSound(me, s, a);
    if Slips(s, a) {
      var i :| 0 <= i < |s.versions| && s.versions[i].bound;
      var k: nat :| Root(s.versions, i, k);
      var read := s.pass.value.read;
      ReleasingIsSound(me, s, s.pass.value);
      hide Inv, History, Persistent, EverBound, EverCompleted;
      assert s.versions[read].deleting && !s.versions[read].bound;
      if k <= read { BoundIsForever(s.versions, k, read); } else { DeletionIsPermanent(s.versions, read, k); }
    }
  }

  lemma {:induction false} NoLossNeverSlips(me: string, s: State, run: seq<Action>)
    requires Inv(me, s) && Rooted(s.versions) && Persistent(s.versions, 0) && s.versions != [] && NoLoss(me, s, run)
    ensures NeverSlips(me, s, run)
    decreases |run|
  {
    hide Inv, Rooted, Persistent, Apply, Slips, Loses;
    if run != [] {
      var t := Apply(me, s, run[0]);
      PersistentNeverSlips(me, s, run[0]);
      StepIsPersistent(me, s, run[0]);
      PersistentJoins(s.versions, t.versions, 0);
      StepKeepsInv(me, s, run[0]);
      StepIsRooted(me, s, run[0]);
      NoLossNeverSlips(me, t, run[1..]);
    }
  }

  lemma StartIsRooted()
    ensures Rooted(INITIAL.versions) && Persistent(INITIAL.versions, 0)
  {
  }

  /** In a run without a loss, the finalizer of an environment that is bound, or ever was, is
      removed only after CleanupComplete was persisted. */
  lemma NoLossReleasesInOrder(me: string, run: seq<Action>)
    requires NoLoss(me, INITIAL, run)
    ensures InOrder(Execute(me, INITIAL, run).versions, 0)
  {
    StartIsSound(me);
    StartIsRooted();
    hide Inv, Rooted, Persistent, InOrder, Execute, NoLoss, NeverSlips;
    NoLossNeverSlips(me, INITIAL, run);
    InOrderExactlyWhen(me, INITIAL, run);
  }

  // ---- was the work cleaned up? ----------------------------------------------------------------------

  /** A cleanup that is done, by a pass that read the bound flag. */
  predicate CleansBound(s: State, a: Action) {
    && a.CleanUp? && Reading(s) && s.pass.value.stage.Owned?
    && ReadBy(s).deleting && !ReadBy(s).cleanup && ReadBy(s).bound
    && (a.template ==> a.undeployed && a.deprovisioned)
  }

  lemma OnlyCleanUpsRecord(me: string, s: State, a: Action)
    requires s.versions != [] && !(a.CleanUp? && Reading(s))
    ensures Apply(me, s, a).cleanups == s.cleanups
  {
    hide PassStep, Surroundings;
    SurroundingsArePlain(s, a);
    if Reading(s) && !a.Begin? {
      var p, r := s.pass.value, ReadBy(s);
      if a.LookUp? || a.Create? || a.DeleteNamespace? {
        CallsRecordNothing(me, s, p, r, a);
      } else if a.GiveUp? || a.Allocate? || a.SetFailed? || a.Bind? || a.Work? {
        ThoughtsRecordNothing(me, s, p, r, a);
      } else {
        WritesRecordNothing(me, s, p, r, a);
      }
    }
  }

  lemma CallsRecordNothing(me: string, s: State, p: Pass, r: Env, a: Action)
    requires s.versions != [] && s.pass == Some(p) && (a.LookUp? || a.Create? || a.DeleteNamespace?)
    ensures PassStep(me, s, p, r, a).cleanups == s.cleanups
  {
    if r.target.Some? { CallsSetNothing(me, s, p, r); }
    hide LookUpCall, CreateCall, DeleteCall, Sets;
  }

  lemma ThoughtsRecordNothing(me: string, s: State, p: Pass, r: Env, a: Action)
    requires s.versions != [] && (a.GiveUp? || a.Allocate? || a.SetFailed? || a.Bind? || a.Work?)
    ensures PassStep(me, s, p, r, a).cleanups == s.cleanups
  {
    hide Decision;
  }

  lemma WritesRecordNothing(me: string, s: State, p: Pass, r: Env, a: Action)
    requires s.versions != [] && !Thinks(a)
    ensures PassStep(me, s, p, r, a).cleanups == s.cleanups
  {
    SurroundingsArePlain(s, a);
    hide Surroundings, Locked;
  }

  lemma CleanUpRecords(me: string, s: State, a: Action)
    requires s.versions != [] && a.CleanUp? && Reading(s)
    ensures var t := Apply(me, s, a);
      var (p, r) := (s.pass.value, ReadBy(s));
      && t.versions == s.versions
      && t.cleanups == if p.stage.Owned? && r.deleting && !r.cleanup
                          && !(a.template && r.bound && !(a.undeployed && a.deprovisioned))
                       then s.cleanups + [Cleanup(p.read, a.template, a.undeployed, a.deprovisioned)] else s.cleanups
  {
  }

  lemma FullCleanupCarries(s: State, t: State)
    requires s.cleanups == t.cleanups && s.versions <= t.versions
    requires forall c | c in s.cleanups :: c.read < |s.versions|
    ensures FullCleanup(t) <==> FullCleanup(s)
  {
    if FullCleanup(s) {
      var c :| c in s.cleanups && c.read < |s.versions| && s.versions[c.read].bound
               && (c.template ==> c.undeployed && c.deprovisioned);
      assert t.versions[c.read] == s.versions[c.read];
    }
  }

  lemma FullCleanupAppends(s: State, t: State, c: Cleanup)
    requires s.versions == t.versions && t.cleanups == s.cleanups + [c] && c.read < |s.versions|
    ensures FullCleanup(t) <==>
            FullCleanup(s) || (s.versions[c.read].bound && (c.template ==> c.undeployed && c.deprovisioned))
  {
    assert c in t.cleanups;
    if FullCleanup(t) {
      var d :| d in t.cleanups && d.read < |t.versions| && t.versions[d.read].bound
               && (d.template ==> d.undeployed && d.deprovisioned);
      assert d in s.cleanups || d == c;
    }
    if FullCleanup(s) {
      var d :| d in s.cleanups && d.read < |s.versions| && s.versions[d.read].bound
               && (d.template ==> d.undeployed && d.deprovisioned);
      assert d in t.cleanups;
    }
  }

  lemma CleanupsAreRead(me: string, s: State)
    requires Inv(me, s)
    ensures s.versions != [] && forall c | c in s.cleanups :: c.read < |s.versions|
  {
    LandingIsSound(me, s, Crash);
    hide StageSound, History;
    forall c | c in s.cleanups ensures c.read < |s.versions| { assert CleanupSound(s.versions, c); }
  }

  lemma StepCleansExactlyWhen(me: string, s: State, a: Action)
    requires Inv(me, s)
    ensures FullCleanup(Apply(me, s, a)) <==> FullCleanup(s) || CleansBound(s, a)
  {
    CleanupsAreRead(me, s);
    hide Inv, Apply, FullCleanup;
    var t := Apply(me, s, a);
    VersionsGrow(me, s, a);
    if a.CleanUp? && Reading(s) {
      CleanUpRecords(me, s, a);
      if t.cleanups == s.cleanups {
        FullCleanupCarries(s, t);
      } else {
        FullCleanupAppends(s, t, Cleanup(s.pass.value.read, a.template, a.undeployed, a.deprovisioned));
      }
    } else {
      OnlyCleanUpsRecord(me, s, a);
      FullCleanupCarries(s, t);
    }
  }

  ghost predicate NeverCleans(me: string, s: State, run: seq<Action>)
    requires s.versions != []
    decreases |run|
  {
    run == []
    || (!CleansBound(s, run[0]) && Apply(me, s, run[0]).versions != []
        && NeverCleans(me, Apply(me, s, run[0]), run[1..]))
  }

  lemma {:induction false} RunCleansExactlyWhen(me: string, s: State, run: seq<Action>)
    requires Inv(me, s) && s.versions != []
    ensures FullCleanup(Execute(me, s, run)) <==> FullCleanup(s) || !NeverCleans(me, s, run)
    decreases |run|
  {
    hide Inv, Apply, FullCleanup, CleansBound;
    if run != [] {
      VersionsGrow(me, s, run[0]);
      StepCleansExactlyWhen(me, s, run[0]);
      StepKeepsInv(me, s, run[0]);
      RunCleansExactlyWhen(me, Apply(me, s, run[0]), run[1..]);
    }
  }

  /** Over any run, released or not: the work was cleaned up by a pass that knew of it exactly when
      some step of the run is a finished cleanup over a read with the bound flag; that is when a
      cleanup on record read a bound version. */
  lemma WorkIsCleanedExactlyWhen(me: string, run: seq<Action>)
    ensures var s := Execute(me, INITIAL, run);
      && (FullCleanup(s) <==> !NeverCleans(me, INITIAL, run))
      && (FullCleanup(s) <==> exists c :: c in s.cleanups && c.read < |s.versions| && s.versions[c.read].bound)
  {
    StartIsSound(me);
    RunCleansExactlyWhen(me, INITIAL, run);
    RunKeepsInv(me, INITIAL, run);
    hide Execute, NeverCleans, StageSound, History, Owns;
    var s := Execute(me, INITIAL, run);
    forall c | c in s.cleanups ensures CleanupSound(s.versions, c) {}
  }
}
