/** What the lifecycle guarantees, and exactly when a stale read takes it back. */
module LifecycleTheorems {
  import opened Wrappers
  import opened Lifecycle
  import opened LifecycleSafety

  // ---- for every run ----------------------------------------------------------------------

  /** Work is done only by a pass that read a version with NamespaceBound, with a target, and
      not yet deleted: the checkpoint was persisted before. */
  lemma WorkIsBound(me: string, run: seq<Action>)
    ensures var s := Execute(me, INITIAL, run);
      forall v | v in s.works :: v < |s.versions| && s.versions[v].bound && !s.versions[v].deleting
          && s.versions[v].target.Some?
  {
    StartIsSound(me);
    RunKeepsInv(me, INITIAL, run);
    hide History, StageSound, Execute;
    var s := Execute(me, INITIAL, run);
    forall v | v in s.works ensures WorkSound(s.versions, v) {}
  }

  /** Every namespace whose deletion committed was, at that instant, managed and labelled with this
      environment's UID -- so with nobody else's -- even when labels change between the read and
      the delete. */
  lemma OnlyOwnNamespacesAreDeleted(me: string, run: seq<Action>)
    ensures forall ns | ns in Execute(me, INITIAL, run).deleted ::
      Owns(me, ns) && forall other | other != me :: !Owns(other, ns)
  {
    StartIsSound(me);
    RunKeepsInv(me, INITIAL, run);
    hide History, StageSound, Execute;
  }

  /** How often the target changed over the first k + 1 versions. */
  function Assignments(versions: seq<Env>, k: nat): nat
    requires k < |versions|
  {
    if k == 0 then 0
    else Assignments(versions, k - 1) + (if versions[k].target == versions[k - 1].target then 0 else 1)
  }

  lemma {:induction false} AssignmentsBounded(versions: seq<Env>, k: nat)
    requires History(versions) && k < |versions|
    ensures Assignments(versions, k) <= if versions[k].target.None? then 0 else versions[k].target.value / 4 - 1
  {
    if k > 0 {
      AssignmentsBounded(versions, k - 1);
      assert Succeeds(versions[k - 1], versions[k]) && Placed(versions[k - 1]) && Placed(versions[k]);
    }
  }

  /** The target is empty or one of the lengths 8, 12, ..., 52; it only grows, is assigned
      twelve times at most, and is never changed from a version that is bound. */
  lemma TargetOnlyGrows(me: string, run: seq<Action>, i: nat)
    requires i < |Execute(me, INITIAL, run).versions|
    ensures var versions := Execute(me, INITIAL, run).versions;
      && (versions[i].target.Some? ==> IsLength(versions[i].target.value))
      && Assignments(versions, i) <= 12
      && (i > 0 && versions[i].target != versions[i - 1].target ==>
            !versions[i - 1].bound && versions[i].target.Some?
            && (versions[i - 1].target.Some? ==> versions[i - 1].target.value < versions[i].target.value))
  {
    StartIsSound(me);
    RunKeepsInv(me, INITIAL, run);
    hide StageSound, Recorded, Execute;
    var versions := Execute(me, INITIAL, run).versions;
    AssignmentsBounded(versions, i);
    assert Placed(versions[i]);
    if i > 0 { assert Succeeds(versions[i - 1], versions[i]); }
  }

  // ---- where CleanupComplete comes from ------------------------------------------------------

  ghost predicate CleanedBefore(s: State, i: nat) {
    exists c :: c in s.cleanups && c.read < i
  }

  /** This pass is about to set CleanupComplete. */
  predicate Setting(s: State) {
    Reading(s) && Sets(ReadBy(s), s.pass.value.stage)
  }

  predicate Sets(r: Env, g: Stage) {
    g.Patching? && g.env.cleanup && !r.cleanup
  }

  ghost predicate Origins(s: State) {
    && s.versions != [] && (s.pass.Some? ==> Reading(s))
    && (forall i | 0 <= i < |s.versions| && s.versions[i].cleanup :: CleanedBefore(s, i))
    && (Setting(s) ==> CleanedBefore(s, |s.versions|))
  }

  predicate Plain(c: Env, e: Env) {
    e == c || e == c.(deleting := true) || e == c.(finalizer := true) || e == c.(finalizer := false)
  }

  predicate Landing(s: State, a: Action) {
    a.Land? && Reading(s) && s.pass.value.stage.Patching?
  }

  lemma SurroundingsArePlain(s: State, a: Action)
    requires s.versions != []
    ensures var t := Surroundings(s, a);
      && s.versions <= t.versions && t.versions != [] && t.pass == s.pass && t.cleanups == s.cleanups
      && (t.versions == s.versions || (|t.versions| == |s.versions| + 1 && Plain(Current(s), Current(t))))
  {
  }

  /** The steps that write nothing to the environment. */
  predicate Thinks(a: Action) {
    a.GiveUp? || a.Allocate? || a.SetFailed? || a.Bind? || a.LookUp? || a.Create? || a.Work? || a.CleanUp?
        || a.DeleteNamespace?
  }

  lemma ThinkingIsQuiet(me: string, s: State, p: Pass, r: Env, a: Action)
    requires s.versions != [] && Thinks(a)
    ensures PassStep(me, s, p, r, a).versions == s.versions
  {
    ReadsAreQuiet(me, s, p, r, CleanupOf(p, a));
    hide LookUpCall, CreateCall, DeleteCall, CleanUpCall, Decision;
  }

  ghost predicate PlainStep(s: State, t: State) {
    && s.versions <= t.versions && t.versions != [] && s.versions != []
    && (t.versions == s.versions || (|t.versions| == |s.versions| + 1 && Plain(Current(s), Current(t))))
  }

  lemma FinalizerIsPlain(me: string, s: State, p: Pass, r: Env, a: Action)
    requires s.versions != [] && (a.AddFinalizer? || a.Release? || a.Crash?)
    ensures PlainStep(s, PassStep(me, s, p, r, a))
  {
  }

  lemma ExpiryIsPlain(me: string, s: State, p: Pass, r: Env)
    requires s.versions != []
    ensures PlainStep(s, PassStep(me, s, p, r, Expire))
  {
    SurroundingsArePlain(s, UserDelete);
    assert Deletion(s) == Surroundings(s, UserDelete);
    hide Surroundings, Deletion, Plain;
  }

  lemma PassChanges(me: string, s: State, p: Pass, r: Env, a: Action)
    requires s.versions != []
    ensures var t := PassStep(me, s, p, r, a);
      && s.versions <= t.versions && t.versions != []
      && (t.versions == s.versions
          || (|t.versions| == |s.versions| + 1 && ((a.Land? && p.stage.Patching?) || Plain(Current(s), Current(t)))))
  {
    hide LookUpCall, CreateCall, DeleteCall, CleanUpCall, Surroundings, Deletion, LandCall, Decision, ReleaseCall;
    hide Plain, Current;
    if Thinks(a) {
      hide PassStep;
      ThinkingIsQuiet(me, s, p, r, a);
    } else if a.AddFinalizer? || a.Release? || a.Crash? {
      hide PassStep;
      FinalizerIsPlain(me, s, p, r, a);
    } else if a.Expire? {
      hide PassStep;
      ExpiryIsPlain(me, s, p, r);
    } else if a.Land? {
      if p.stage.Patching? { LandGrows(s, p, r, p.stage.env); }
    } else {
      SurroundingsArePlain(s, a);
    }
  }

  lemma LandGrows(s: State, p: Pass, r: Env, e: Env)
    requires s.versions != []
    ensures var t := LandCall(s, p, r, e);
      s.versions <= t.versions && t.versions != [] && |t.versions| <= |s.versions| + 1
  {
  }

  /** Steps other than a status patch leave target and conditions of the environment alone. */
  lemma OnlyPatchesChange(me: string, s: State, a: Action)
    requires s.versions != []
    ensures var t := Apply(me, s, a);
      && s.versions <= t.versions && t.versions != []
      && (t.versions == s.versions
          || (|t.versions| == |s.versions| + 1 && (Landing(s, a) || Plain(Current(s), Current(t)))))
      && (Landing(s, a) ==> t == LandCall(s, s.pass.value, ReadBy(s), s.pass.value.stage.env))
  {
    SurroundingsArePlain(s, a);
    if Landing(s, a) { LandingIsLand(me, s, s.pass.value, a); }
    if Reading(s) { PassChanges(me, s, s.pass.value, ReadBy(s), a); }
    hide PassStep, Surroundings, LandCall, Plain;
  }

  lemma LandingIsLand(me: string, s: State, p: Pass, a: Action)
    requires Landing(s, a) && s.pass == Some(p)
    ensures s.versions != [] && PassStep(me, s, p, ReadBy(s), a) == LandCall(s, p, ReadBy(s), p.stage.env)
  {
    hide LandCall;
  }

  lemma LandedCleanup(s: State, p: Pass, r: Env, e: Env)
    requires Reading(s) && s.pass == Some(p) && r == ReadBy(s) && p.stage == Patching(e)
    ensures var t := LandCall(s, p, r, e);
      && s.versions <= t.versions && |t.versions| <= |s.versions| + 1 && t.cleanups == s.cleanups && t.pass.None?
      && (t.versions != s.versions && Current(t).cleanup ==> Current(s).cleanup || Setting(s) || r.cleanup)
  {
  }

  ghost predicate StageFollows(s: State, p: Pass, r: Env, t: State) {
    && s.cleanups <= t.cleanups
    && (t.pass.Some? ==>
          && t.pass.value.read == p.read
          && (Sets(r, t.pass.value.stage) ==>
                Sets(r, p.stage) || (|t.cleanups| > 0 && t.cleanups[|t.cleanups| - 1].read == p.read)))
  }

  lemma DecisionFollows(me: string, s: State, p: Pass, r: Env, a: Action)
    requires s.versions != [] && s.pass == Some(p)
    requires (a.GiveUp? || a.Allocate? || a.SetFailed? || a.Bind? || a.CleanUp?)
    ensures StageFollows(s, p, r, PassStep(me, s, p, r, a))
  {
    DecisionSetsNothing(me, p, r, a);
    hide IsLength, Decision;
  }

  lemma CallFollows(me: string, s: State, p: Pass, r: Env, a: Action)
    requires s.versions != [] && s.pass == Some(p) && (a.LookUp? || a.Create? || a.DeleteNamespace? || a.Work?)
    ensures StageFollows(s, p, r, PassStep(me, s, p, r, a))
  {
    if r.target.Some? { CallsSetNothing(me, s, p, r); }
    hide LookUpCall, CreateCall, DeleteCall;
  }

  lemma WriteFollows(me: string, s: State, p: Pass, r: Env, a: Action)
    requires s.versions != [] && s.pass == Some(p)
    requires (a.AddFinalizer? || a.Release? || a.Crash? || a.Land? || a.Expire?)
    ensures StageFollows(s, p, r, PassStep(me, s, p, r, a))
  {
    hide Locked;
  }

  /** Only CleanUp prepares a patch that sets CleanupComplete, and it goes on record. */
  lemma NextStage(me: string, s: State, p: Pass, r: Env, a: Action)
    requires s.versions != [] && s.pass == Some(p)
    ensures StageFollows(s, p, r, PassStep(me, s, p, r, a))
  {
    if a.GiveUp? || a.Allocate? || a.SetFailed? || a.Bind? || a.CleanUp? {
      hide *;
      DecisionFollows(me, s, p, r, a);
    } else if a.LookUp? || a.Create? || a.DeleteNamespace? || a.Work? {
      hide *;
      CallFollows(me, s, p, r, a);
    } else if a.AddFinalizer? || a.Release? || a.Crash? || a.Land? || a.Expire? {
      hide *;
      WriteFollows(me, s, p, r, a);
    } else {
      SurroundingsArePlain(s, a);
      hide Surroundings, Plain, Sets;
    }
  }

  lemma DecisionSetsNothing(me: string, p: Pass, r: Env, a: Action)
    ensures Sets(r, Decision(me, p, r, a)) ==> Sets(r, p.stage)
  {
    hide IsLength;
  }

  lemma CallsSetNothing(me: string, s: State, p: Pass, r: Env)
    requires r.target.Some? && s.pass == Some(p)
    ensures QuietAbout(s, p, r, LookUpCall(me, s, p, r)) && QuietAbout(s, p, r, CreateCall(me, s, p, r))
    ensures p.stage.Removing? ==> QuietAbout(s, p, r, DeleteCall(s, p, r, p.stage.ns))
  {
    hide Owns, IsLength;
  }

  predicate QuietAbout(s: State, p: Pass, r: Env, t: State) {
    t.pass.Some? && t.pass.value.read == p.read && (Sets(r, t.pass.value.stage) ==> Sets(r, p.stage))
        && t.cleanups == s.cleanups
  }

  lemma NewSetting(me: string, s: State, a: Action)
    requires s.versions != [] && (s.pass.Some? ==> Reading(s))
    ensures var t := Apply(me, s, a);
      && s.cleanups <= t.cleanups && (t.pass.Some? ==> Reading(t))
      && (Setting(t) ==>
            Setting(s) || (Reading(s) && |t.cleanups| > 0 && t.cleanups[|t.cleanups| - 1].read == s.pass.value.read))
  {
    hide PassStep, Surroundings, Plain, Current;
    VersionsGrow(me, s, a);
    SurroundingsArePlain(s, a);
    if s.pass.Some? { NextStage(me, s, s.pass.value, ReadBy(s), a); }
  }

  /** Where the CleanupComplete of a new version comes from. */
  lemma NewCleanup(me: string, s: State, a: Action)
    requires s.versions != []
    ensures var t := Apply(me, s, a);
      && s.versions <= t.versions && t.versions != [] && |t.versions| <= |s.versions| + 1
      && (t.versions != s.versions && Current(t).cleanup ==>
          Current(s).cleanup || Setting(s) || (Reading(s) && ReadBy(s).cleanup))
  {
    OnlyPatchesChange(me, s, a);
    if Landing(s, a) { LandedCleanup(s, s.pass.value, ReadBy(s), s.pass.value.stage.env); }
    hide Apply, LandCall;
  }

  lemma CleanupHasOrigin(me: string, s: State, a: Action)
    requires Origins(s)
    ensures Origins(Apply(me, s, a))
  {
    hide *;
    OriginsRead(s);
    NewCleanup(me, s, a);
    NewSetting(me, s, a);
    OriginsCarry(s, Apply(me, s, a));
  }

  lemma OriginsRead(s: State)
    requires Origins(s)
    ensures s.versions != [] && (s.pass.Some? ==> Reading(s))
  {
  }

  lemma OriginsCarry(s: State, t: State)
    requires Origins(s) && s.versions <= t.versions && |t.versions| <= |s.versions| + 1 && s.cleanups <= t.cleanups
    requires t.versions != s.versions && Current(t).cleanup ==>
             Current(s).cleanup || Setting(s) || (Reading(s) && ReadBy(s).cleanup)
    requires t.pass.Some? ==> Reading(t)
    requires Setting(t) ==>
               Setting(s) || (Reading(s) && |t.cleanups| > 0 && t.cleanups[|t.cleanups| - 1].read == s.pass.value.read)
    ensures Origins(t)
  {
    hide Setting, CleanedBefore;
    forall i | 0 <= i < |t.versions| && t.versions[i].cleanup ensures CleanedBefore(t, i) {
      if i < |s.versions| {
        CleanedStays(s, t, i, i);
      } else {
        NewIsCleaned(s, t);
      }
    }
    if Setting(t) {
      if Setting(s) {
        CleanedStays(s, t, |s.versions|, |t.versions|);
      } else {
        JustCleaned(t, s.pass.value.read);
      }
    }
  }

  lemma NewIsCleaned(s: State, t: State)
    requires Origins(s) && s.cleanups <= t.cleanups
    requires Current(s).cleanup || Setting(s) || (Reading(s) && ReadBy(s).cleanup)
    ensures CleanedBefore(t, |s.versions|)
  {
    hide Setting, CleanedBefore;
    if Current(s).cleanup {
      CleanedStays(s, t, |s.versions| - 1, |s.versions|);
    } else if Setting(s) {
      CleanedStays(s, t, |s.versions|, |s.versions|);
    } else {
      CleanedStays(s, t, s.pass.value.read, |s.versions|);
    }
  }

  lemma JustCleaned(t: State, read: nat)
    requires |t.cleanups| > 0 && t.cleanups[|t.cleanups| - 1].read == read < |t.versions|
    ensures CleanedBefore(t, |t.versions|)
  {
    assert t.cleanups[|t.cleanups| - 1] in t.cleanups;
  }

  lemma CleanedStays(s: State, t: State, i: nat, j: nat)
    requires CleanedBefore(s, i) && s.cleanups <= t.cleanups && i <= j
    ensures CleanedBefore(t, j)
  {
    var c :| c in s.cleanups && c.read < i;
    assert c in t.cleanups;
  }

  lemma {:induction false} RunKeepsOrigins(me: string, s: State, run: seq<Action>)
    requires Origins(s)
    ensures Origins(Execute(me, s, run))
    decreases |run|
  {
    if run != [] {
      CleanupHasOrigin(me, s, run[0]);
      hide Apply, Origins;
      VersionsGrow(me, s, run[0]);
      RunKeepsOrigins(me, Apply(me, s, run[0]), run[1..]);
    }
  }

  /** The finalizer is removed only on the word of a version that is being deleted; when that
      version is bound it has CleanupComplete, set by an earlier pass; and CleanupComplete is
      set for a bound environment with a template only when both cleanups were done. What it
      says of an environment that is bound at the release, LifecycleRelease tells. */
  lemma CleanupBeforeRelease(me: string, run: seq<Action>)
    ensures var s := Execute(me, INITIAL, run);
      && (forall v | v in s.releases :: ReleaseSound(s.versions, v))
      && (forall v | v in s.releases && s.versions[v].bound :: CleanedBefore(s, v))
      && (forall c | c in s.cleanups :: CleanupSound(s.versions, c))
  {
    StartIsSound(me);
    RunKeepsInv(me, INITIAL, run);
    RunKeepsOrigins(me, INITIAL, run);
    hide History, StageSound, Execute, Setting, CleanedBefore;
  }

  // ---- the bound flag -------------------------------------------------------------------------

  /** The one step that takes a checkpoint back: an unlocked patch that changes the Ready
      condition, from a pass whose read is out of date about the other conditions. */
  predicate Clobbers(s: State, a: Action)
    requires s.versions != []
  {
    && a.Land? && !s.gone && Reading(s) && s.pass.value.stage.Patching?
    && var r, e := ReadBy(s), s.pass.value.stage.env;
    && !Locked(r, e) && e.ready != r.ready
    && (r.bound != Current(s).bound || r.cleanup != Current(s).cleanup)
  }

  /** It loses a bound flag that the read did not have yet. */
  predicate Loses(s: State, a: Action)
    requires s.versions != []
  {
    Clobbers(s, a) && Current(s).bound && !ReadBy(s).bound
  }

  /** What a step does to a bound flag, and to the flag of an environment being deleted. */
  ghost predicate Stays(s: State, a: Action, t: State) {
    && s.versions != [] && t.versions != []
    && (Current(s).bound ==> Current(t).target == Current(s).target && (!Current(t).bound <==> Loses(s, a)))
    && (Current(s).deleting ==>
          (Current(t).bound != Current(s).bound <==> Clobbers(s, a) && ReadBy(s).bound != Current(s).bound))
  }

  lemma LandedStays(s: State, a: Action, p: Pass)
    requires Landing(s, a) && s.pass == Some(p) && PatchSound(ReadBy(s), p.stage.env)
    ensures Stays(s, a, LandCall(s, p, ReadBy(s), p.stage.env))
  {
    hide IsLength;
  }

  lemma QuietStays(s: State, a: Action, t: State)
    requires !Landing(s, a) && PlainStep(s, t)
    ensures Stays(s, a, t)
  {
    hide Locked;
  }

  lemma LandingIsSound(me: string, s: State, a: Action)
    requires Inv(me, s)
    ensures s.versions != []
    ensures Landing(s, a) ==> PatchSound(ReadBy(s), s.pass.value.stage.env)
  {
    hide PatchSound, Recorded;
  }

  lemma StepStays(me: string, s: State, a: Action)
    requires Inv(me, s)
    ensures Stays(s, a, Apply(me, s, a))
  {
    hide Inv, Apply, PatchSound, Fresh, Owns, Stays, Plain, LandCall, Current;
    LandingIsSound(me, s, a);
    OnlyPatchesChange(me, s, a);
    if Landing(s, a) {
      LandedStays(s, a, s.pass.value);
    } else {
      QuietStays(s, a, Apply(me, s, a));
    }
  }

  /** Once the deletion timestamp is set, a step changes the bound flag exactly when it clobbers
      a list of conditions that differs in it. */
  lemma BoundAfterDeletion(me: string, s: State, a: Action)
    requires Inv(me, s) && Current(s).deleting
    ensures Apply(me, s, a).versions != []
    ensures Current(Apply(me, s, a)).bound != Current(s).bound <==>
            Clobbers(s, a) && ReadBy(s).bound != Current(s).bound
  {
    hide Inv, Apply, Clobbers;
    StepStays(me, s, a);
  }

  /** Deleted or not, a bound environment loses the flag in a step exactly when an unlocked patch
      of changed conditions lands from a read that was not bound yet; its target stays, then. */
  lemma BoundIsLostExactlyWhen(me: string, s: State, a: Action)
    requires Inv(me, s) && Current(s).bound
    ensures Apply(me, s, a).versions != []
    ensures !Current(Apply(me, s, a)).bound <==> Clobbers(s, a) && !ReadBy(s).bound
    ensures Current(Apply(me, s, a)).target == Current(s).target
  {
    hide Inv, Apply, Clobbers;
    StepStays(me, s, a);
  }

  // ---- over runs ------------------------------------------------------------------------------

  ghost predicate NoLoss(me: string, s: State, run: seq<Action>)
    requires s.versions != []
    decreases |run|
  {
    run == []
    || (!Loses(s, run[0]) && Apply(me, s, run[0]).versions != [] && NoLoss(me, Apply(me, s, run[0]), run[1..]))
  }

  /** From version `from` on, what is bound stays bound, with its target. */
  ghost predicate Persistent(versions: seq<Env>, from: nat) {
    forall i | from <= i < |versions| - 1 && versions[i].bound ::
      versions[i + 1].bound && versions[i + 1].target == versions[i].target
  }

  lemma StepIsPersistent(me: string, s: State, a: Action)
    requires Inv(me, s)
    ensures s.versions != [] && s.versions <= Apply(me, s, a).versions
    ensures Persistent(Apply(me, s, a).versions, |s.versions| - 1) <==> !Loses(s, a)
  {
    hide *;
    LandingIsSound(me, s, a);
    StepStays(me, s, a);
    StaysMeans(s, a, Apply(me, s, a));
    VersionsGrow(me, s, a);
    CurrentIsLast(s);
    CurrentIsLast(Apply(me, s, a));
    if Loses(s, a) { LosesBound(s, a); }
    PersistentStep(s.versions, Apply(me, s, a).versions);
  }

  lemma StaysMeans(s: State, a: Action, t: State)
    requires Stays(s, a, t)
    ensures t.versions != []
    ensures Current(s).bound ==> Current(t).target == Current(s).target && (!Current(t).bound <==> Loses(s, a))
  {
    hide Clobbers;
  }

  lemma LosesBound(s: State, a: Action)
    requires s.versions != [] && Loses(s, a)
    ensures Current(s).bound
  {
  }

  lemma CurrentIsLast(s: State)
    requires s.versions != []
    ensures Current(s) == s.versions[|s.versions| - 1]
  {
  }

  /** One version more at most: only the last pair counts. */
  lemma PersistentStep(before: seq<Env>, after: seq<Env>)
    requires before != [] && before <= after && |after| <= |before| + 1
    ensures var (b, a) := (before[|before| - 1], after[|after| - 1]);
      Persistent(after, |before| - 1) <==> (b.bound ==> a.bound && a.target == b.target)
  {
    if |after| == |before| + 1 { assert after[|before| - 1] == before[|before| - 1]; }
  }

  lemma PersistentJoins(mid: seq<Env>, versions: seq<Env>, from: nat)
    requires mid != [] && mid <= versions && from < |mid|
    ensures Persistent(versions, from) <==> Persistent(mid, from) && Persistent(versions, |mid| - 1)
  {
    if Persistent(versions, from) {
      forall i | from <= i < |mid| - 1 && mid[i].bound ensures mid[i + 1].bound && mid[i + 1].target == mid[i].target {
        assert versions[i] == mid[i] && versions[i + 1] == mid[i + 1];
      }
    }
    if Persistent(mid, from) && Persistent(versions, |mid| - 1) {
      forall i | from <= i < |versions| - 1 && versions[i].bound
        ensures versions[i + 1].bound && versions[i + 1].target == versions[i].target
      {
        if i < |mid| - 1 { assert versions[i] == mid[i] && versions[i + 1] == mid[i + 1]; }
      }
    }
  }

  /** Over any run: what is bound stays bound with its target, for good, exactly when no step of
      the run loses the flag. */
  lemma {:induction false} BoundIsForeverExactlyWhen(me: string, s: State, run: seq<Action>)
    requires Inv(me, s)
    ensures s.versions != [] && s.versions <= Execute(me, s, run).versions
    ensures NoLoss(me, s, run) <==> Persistent(Execute(me, s, run).versions, |s.versions| - 1)
    decreases |run|
  {
    assert s.versions != [];
    hide Inv, Persistent, Apply, Loses;
    if run == [] {
      PersistentStep(s.versions, s.versions);
    } else {
      var t := Apply(me, s, run[0]);
      StepIsPersistent(me, s, run[0]);
      StepKeepsInv(me, s, run[0]);
      BoundIsForeverExactlyWhen(me, t, run[1..]);
      PersistentJoins(t.versions, Execute(me, s, run).versions, |s.versions| - 1);
    }
  }

  lemma {:induction false} BoundIsForever(versions: seq<Env>, i: nat, j: nat)
    requires Persistent(versions, 0) && i <= j < |versions| && versions[i].bound
    ensures versions[j].bound && versions[j].target == versions[i].target
    decreases j
  {
    if i < j { BoundIsForever(versions, i, j - 1); }
  }

  /** A step of the run that loses the flag. */
  ghost predicate LosesAt(me: string, s: State, run: seq<Action>, m: nat)
    requires s.versions != [] && m < |run|
  {
    Loses(Execute(me, s, run[..m]), run[m])
  }

  lemma {:induction false} LossHasAStep(me: string, s: State, run: seq<Action>) returns (m: nat)
    requires s.versions != [] && !NoLoss(me, s, run)
    ensures m < |run| && LosesAt(me, s, run, m)
    decreases |run|
  {
    hide Apply, Loses;
    VersionsGrow(me, s, run[0]);
    if Loses(s, run[0]) {
      m := 0;
    } else {
      var k := LossHasAStep(me, Apply(me, s, run[0]), run[1..]);
      m := k + 1;
      assert run[..m][1..] == run[1..][..k] && run[..m][0] == run[0];
    }
  }

  /** The target of an environment that was bound once, deleted or not, moves only in a run with
      a step that loses the flag. */
  lemma TargetMovesOnlyPastALoss(me: string, run: seq<Action>, i: nat, j: nat)
    requires i <= j < |Execute(me, INITIAL, run).versions| && Execute(me, INITIAL, run).versions[i].bound
    requires Execute(me, INITIAL, run).versions[j].target != Execute(me, INITIAL, run).versions[i].target
    ensures exists m :: 0 <= m < |run| && LosesAt(me, INITIAL, run, m)
  {
    StartIsSound(me);
    BoundIsForeverExactlyWhen(me, INITIAL, run);
    hide Execute, Inv, Loses, LosesAt, Persistent;
    if NoLoss(me, INITIAL, run) { BoundIsForever(Execute(me, INITIAL, run).versions, i, j); }
    var m := LossHasAStep(me, INITIAL, run);
  }

  /** A cleanup by a pass that knew the environment was bound: both parts were done, unless the
      template was gone. */
  ghost predicate FullCleanup(s: State) {
    exists c :: c in s.cleanups && c.read < |s.versions| && s.versions[c.read].bound
             && (c.template ==> c.undeployed && c.deprovisioned)
  }

  /** In a run without a loss, what is bound stays bound, with its target; and when an
      environment for which work was done is released, its workloads were cleaned up by a pass
      that knew it was bound: an unbound environment has nothing to lose. */
  lemma NothingIsLost(me: string, run: seq<Action>)
    requires NoLoss(me, INITIAL, run)
    ensures var s := Execute(me, INITIAL, run);
      && (forall i, j | 0 <= i <= j < |s.versions| && s.versions[i].bound ::
            s.versions[j].bound && s.versions[j].target == s.versions[i].target)
      && (s.works != [] && s.releases != [] ==> FullCleanup(s))
  {
    var s := Execute(me, INITIAL, run);
    StartIsSound(me);
    RunKeepsInv(me, INITIAL, run);
    RunKeepsOrigins(me, INITIAL, run);
    BoundIsForeverExactlyWhen(me, INITIAL, run);
    hide Execute, StageSound, Setting, NoLoss;
    forall i, j | 0 <= i <= j < |s.versions| && s.versions[i].bound
      ensures s.versions[j].bound && s.versions[j].target == s.versions[i].target
    {
      BoundIsForever(s.versions, i, j);
    }
    if s.works != [] && s.releases != [] {
      ReleasedAfterCleanup(me, s, s.works[0], s.releases[0]);
    }
  }

  lemma ReleasedAfterCleanup(me: string, s: State, v: nat, r: nat)
    requires Inv(me, s) && Origins(s) && Persistent(s.versions, 0) && v in s.works && r in s.releases
    ensures FullCleanup(s)
  {
    hide StageSound, Persistent, History, Setting, Owns;
    assert WorkSound(s.versions, v) && ReleaseSound(s.versions, r);
    if r <= v { DeletionIsPermanent(s.versions, r, v); }
    BoundIsForever(s.versions, v, r);
    assert CleanedBefore(s, r);
    var c :| c in s.cleanups && c.read < r;
    assert CleanupSound(s.versions, c);
    if c.read <= v { DeletionIsPermanent(s.versions, c.read, v); }
    BoundIsForever(s.versions, v, c.read);
  }
}
