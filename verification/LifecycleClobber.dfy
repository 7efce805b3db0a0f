/** Runs in which stale reads take the bound flag back, or bring it back too late. */
module LifecycleClobber {
  import opened Wrappers
  import opened Lifecycle
  import opened LifecycleTheorems
  import opened LifecycleRelease

  lemma ExecuteThree(me: string, s: State, a: Action, b: Action, c: Action)
    requires s.versions != [] && Apply(me, s, a).versions != [] && Apply(me, Apply(me, s, a), b).versions != []
    ensures Execute(me, s, [a, b, c]) == Apply(me, Apply(me, Apply(me, s, a), b), c)
  {
    hide Apply;
    VersionsGrow(me, s, a);
    VersionsGrow(me, Apply(me, s, a), b);
    VersionsGrow(me, Apply(me, Apply(me, s, a), b), c);
    assert [a, b, c] == [a] + [b, c] && [b, c] == [b] + [c];
    ExecuteConcat(me, s, [a], [b, c]);
    ExecuteConcat(me, Apply(me, s, a), [b], [c]);
    ExecuteOne(me, s, a);
    ExecuteOne(me, Apply(me, s, a), b);
    ExecuteOne(me, Apply(me, Apply(me, s, a), b), c);
  }

  lemma ExecuteOne(me: string, s: State, a: Action)
    requires s.versions != []
    ensures Execute(me, s, [a]) == Apply(me, s, a)
  {
    hide Apply;
    VersionsGrow(me, s, a);
    assert [a][1..] == [];
    assert Execute(me, Apply(me, s, a), []) == Apply(me, s, a);
  }

  const ME := "uid"
  const REASON := "TemplateNotFound"

  const E1 := CREATED.(finalizer := true)
  const E2 := E1.(target := Some(8))
  const E3 := E2.(bound := true)
  const E5 := E3.(deleting := true)
  const E6 := E5.(bound := false, ready := REASON)
  const E7 := E6.(cleanup := true)
  const E8 := E7.(finalizer := false)
  const NS := Namespace(0, 0, true, ME, false)

  function Held(versions: seq<Env>, namespaces: map<nat, Namespace>, next: nat, works: seq<nat>): State {
    State(versions, false, namespaces, next, None, works, [], [], [])
  }

  const S1 := Held([CREATED, E1], map[], 0, [])
  const S2 := Held([CREATED, E1, E2], map[], 0, [])
  const S3 := Held([CREATED, E1, E2, E3], map[8 := NS], 1, [])
  const S4 := Held([CREATED, E1, E2, E3, E3], map[8 := NS], 1, [3])
  const S5 := Held([CREATED, E1, E2, E3, E3, E5], map[8 := NS], 1, [3])
  const S6 := Held([CREATED, E1, E2, E3, E3, E5, E6], map[8 := NS], 1, [3])
  const S7 := Held([CREATED, E1, E2, E3, E3, E5, E6, E7], map[8 := NS], 1, [3])
    .(cleanups := [Cleanup(6, true, false, false)])

  const FINALIZE := [Begin(0), AddFinalizer, Crash]
  const ALLOCATE := [Begin(1), Allocate(8), Land]
  const BIND := [Begin(2), LookUp, Create] + [Bind, Land, Crash]
  const WORK := [Begin(3), LookUp, Work] + [GiveUp, Land, UserDelete]
  const STALE := [Begin(2), SetFailed(REASON), Land]
  const CLEAN := [Begin(6), LookUp, CleanUp(true, false, false)] + [Land, Begin(7), LookUp]
  const RELEASE := [DeleteNamespace, Release, Crash]

  lemma Finalizes()
    ensures Execute(ME, INITIAL, FINALIZE) == S1
  {
    var t := INITIAL.(pass := Some(Pass(0, Begun)));
    assert Apply(ME, INITIAL, Begin(0)) == t;
    assert t.versions + [E1] == S1.versions;
    assert Apply(ME, t, AddFinalizer) == S1;
    assert Apply(ME, S1, Crash) == S1;
    ExecuteThree(ME, INITIAL, Begin(0), AddFinalizer, Crash);
  }

  lemma Allocates()
    ensures Execute(ME, S1, ALLOCATE) == S2
  {
    hide LookUpCall, CreateCall, DeleteCall, CleanUpCall, ReleaseCall, Deletion, Surroundings, Owns;
    var t := S1.(pass := Some(Pass(1, Begun)));
    assert Apply(ME, S1, Begin(1)) == t;
    var u := S1.(pass := Some(Pass(1, Patching(E2))));
    assert Apply(ME, t, Allocate(8)) == u;
    assert u.versions + [E2] == S2.versions;
    assert Apply(ME, u, Land) == S2;
    hide Apply;
    ExecuteThree(ME, S1, Begin(1), Allocate(8), Land);
  }

  const CREATED_NS := S2.(namespaces := map[8 := NS], next := 1, pass := Some(Pass(2, Owned)))
  const WORKED := S3.(pass := Some(Pass(3, Owned)), works := [3])

  lemma CreatesNamespace()
    ensures Execute(ME, S2, [Begin(2), LookUp, Create]) == CREATED_NS
  {
    var t := S2.(pass := Some(Pass(2, Begun)));
    assert Apply(ME, S2, Begin(2)) == t;
    var u := S2.(pass := Some(Pass(2, Creating)));
    assert Apply(ME, t, LookUp) == u;
    assert Apply(ME, u, Create) == CREATED_NS;
    ExecuteThree(ME, S2, Begin(2), LookUp, Create);
  }

  lemma Binds()
    ensures Execute(ME, S2, BIND) == S3
  {
    var v := CREATED_NS;
    var w := v.(pass := Some(Pass(2, Patching(E3))));
    assert Apply(ME, v, Bind) == w;
    assert w.versions + [E3] == S3.versions;
    assert Apply(ME, w, Land) == S3;
    assert Apply(ME, S3, Crash) == S3;
    ExecuteThree(ME, v, Bind, Land, Crash);
    CreatesNamespace();
    hide Apply;
    ExecuteConcat(ME, S2, [Begin(2), LookUp, Create], [Bind, Land, Crash]);
  }

  lemma StartsWork()
    ensures Execute(ME, S3, [Begin(3), LookUp, Work]) == WORKED
  {
    var t := S3.(pass := Some(Pass(3, Begun)));
    assert Apply(ME, S3, Begin(3)) == t;
    var u := S3.(pass := Some(Pass(3, Owned)));
    assert Apply(ME, t, LookUp) == u;
    assert Apply(ME, u, Work) == WORKED;
    ExecuteThree(ME, S3, Begin(3), LookUp, Work);
  }

  lemma Works()
    ensures Execute(ME, S3, WORK) == S5
  {
    var v := WORKED;
    var w := v.(pass := Some(Pass(3, Patching(E3))));
    assert Apply(ME, v, GiveUp) == w;
    assert w.versions + [E3] == S4.versions && S4.versions + [E5] == S5.versions;
    assert Apply(ME, w, Land) == S4;
    assert Apply(ME, S4, UserDelete) == S5;
    ExecuteThree(ME, v, GiveUp, Land, UserDelete);
    StartsWork();
    hide Apply;
    ExecuteConcat(ME, S3, [Begin(3), LookUp, Work], [GiveUp, Land, UserDelete]);
  }

  lemma Clobbered()
    ensures Execute(ME, S5, STALE) == S6
  {
    hide LookUpCall, CreateCall, DeleteCall, CleanUpCall, ReleaseCall, Deletion, Surroundings, Owns;
    var t := S5.(pass := Some(Pass(2, Begun)));
    assert Apply(ME, S5, Begin(2)) == t;
    var u := S5.(pass := Some(Pass(2, Patching(E2.(ready := REASON)))));
    assert Apply(ME, t, SetFailed(REASON)) == u;
    assert u.versions + [E6] == S6.versions;
    assert Apply(ME, u, Land) == S6;
    hide Apply;
    ExecuteThree(ME, S5, Begin(2), SetFailed(REASON), Land);
  }

  lemma Cleans()
    ensures Execute(ME, S6, CLEAN) == REMOVING
  {
    var clean := CleanUp(true, false, false);
    var t := S6.(pass := Some(Pass(6, Begun)));
    assert Apply(ME, S6, Begin(6)) == t;
    var u := S6.(pass := Some(Pass(6, Owned)));
    assert Apply(ME, t, LookUp) == u;
    var v := S6.(pass := Some(Pass(6, Patching(E7))), cleanups := S7.cleanups);
    assert Apply(ME, u, clean) == v;
    ExecuteThree(ME, S6, Begin(6), LookUp, clean);
    assert v.versions + [E7] == S7.versions;
    assert Apply(ME, v, Land) == S7;
    var w := S7.(pass := Some(Pass(7, Begun)));
    assert Apply(ME, S7, Begin(7)) == w;
    assert Apply(ME, w, LookUp) == REMOVING;
    ExecuteThree(ME, v, Land, Begin(7), LookUp);
    ExecuteConcat(ME, S6, [Begin(6), LookUp, clean], [Land, Begin(7), LookUp]);
  }

  const REMOVING := S7.(pass := Some(Pass(7, Removing(NS))))
  const RELEASING := S7.(namespaces := map[8 := NS.(terminating := true, version := 1)], next := 2, deleted := [NS],
                         pass := Some(Pass(7, Releasing)))

  lemma DeletesNamespace()
    ensures Apply(ME, REMOVING, DeleteNamespace) == RELEASING
  {
  }

  lemma Releases()
    ensures var t := Execute(ME, REMOVING, RELEASE);
      t.gone && t.releases == [7] && t.works == [3] && t.cleanups == S7.cleanups && t.versions == S7.versions + [E8]
  {
    DeletesNamespace();
    var v := Apply(ME, RELEASING, Release);
    assert v == RELEASING.(versions := S7.versions + [E8], gone := true, pass := None, releases := [7]);
    assert Apply(ME, v, Crash) == v;
    hide Apply;
    ExecuteThree(ME, REMOVING, DeleteNamespace, Release, Crash);
  }

  const LOSING := FINALIZE + ALLOCATE + BIND + WORK + STALE + CLEAN + RELEASE

  /** The bound flag does change after the deletion timestamp is set, and then an environment
      is released whose work nobody cleaned up, although its template was there. */
  lemma WorkMayBeLost()
    ensures var s := Execute(ME, INITIAL, LOSING);
      && (exists i ::
            0 <= i < |s.versions| - 1 && s.versions[i].deleting && s.versions[i].bound && !s.versions[i + 1].bound)
      && s.gone && s.works != [] && s.releases != [] && !FullCleanup(s)
      && forall c | c in s.cleanups :: c.template && !c.undeployed && !c.deprovisioned
  {
    Finalizes();
    Allocates();
    Binds();
    Works();
    Clobbered();
    Cleans();
    Releases();
    hide Execute, Apply;
    ExecuteConcat(ME, INITIAL, FINALIZE, ALLOCATE);
    ExecuteConcat(ME, INITIAL, FINALIZE + ALLOCATE, BIND);
    ExecuteConcat(ME, INITIAL, FINALIZE + ALLOCATE + BIND, WORK);
    ExecuteConcat(ME, INITIAL, FINALIZE + ALLOCATE + BIND + WORK, STALE);
    ExecuteConcat(ME, INITIAL, FINALIZE + ALLOCATE + BIND + WORK + STALE, CLEAN);
    ExecuteConcat(ME, INITIAL, FINALIZE + ALLOCATE + BIND + WORK + STALE + CLEAN, RELEASE);
    var s := Execute(ME, INITIAL, LOSING);
    assert s.versions[5] == E5 && s.versions[6] == E6;
  }

  // ---- an environment that is not deleted --------------------------------------------------

  const U5 := E3.(bound := false, ready := REASON)
  const U6 := U5.(target := Some(12))
  const FOREIGN := NS.(version := 1, managed := false, owner := "")
  const T5 := Held([CREATED, E1, E2, E3, E3, U5], map[8 := NS], 1, [3])
  const T6 := Held([CREATED, E1, E2, E3, E3, U5], map[8 := FOREIGN], 2, [3])
  const T7 := Held([CREATED, E1, E2, E3, E3, U5, U6], map[8 := FOREIGN], 2, [3])
  const WORK_ON := [Begin(3), LookUp, Work] + [GiveUp, Land, Crash]
  const MOVE := [Relabel(8, false, ""), Begin(5), LookUp] + [Allocate(12), Land, Crash]

  lemma WorksOn()
    ensures Execute(ME, S3, WORK_ON) == S4
  {
    var w := WORKED.(pass := Some(Pass(3, Patching(E3))));
    assert Apply(ME, WORKED, GiveUp) == w;
    assert w.versions + [E3] == S4.versions;
    assert Apply(ME, w, Land) == S4;
    assert Apply(ME, S4, Crash) == S4;
    ExecuteThree(ME, WORKED, GiveUp, Land, Crash);
    StartsWork();
    hide Apply;
    ExecuteConcat(ME, S3, [Begin(3), LookUp, Work], [GiveUp, Land, Crash]);
  }

  lemma LosesAlive()
    ensures Execute(ME, S4, STALE) == T5
  {
    hide LookUpCall, CreateCall, DeleteCall, CleanUpCall, ReleaseCall, Deletion, Surroundings, Owns;
    var t := S4.(pass := Some(Pass(2, Begun)));
    assert Apply(ME, S4, Begin(2)) == t;
    var u := S4.(pass := Some(Pass(2, Patching(E2.(ready := REASON)))));
    assert Apply(ME, t, SetFailed(REASON)) == u;
    assert u.versions + [U5] == T5.versions;
    assert Apply(ME, u, Land) == T5;
    hide Apply;
    ExecuteThree(ME, S4, Begin(2), SetFailed(REASON), Land);
  }

  lemma FindsForeign()
    ensures Execute(ME, T5, [Relabel(8, false, ""), Begin(5), LookUp]) == T6.(pass := Some(Pass(5, NotManaged)))
  {
    assert Apply(ME, T5, Relabel(8, false, "")) == T6;
    var t := T6.(pass := Some(Pass(5, Begun)));
    assert Apply(ME, T6, Begin(5)) == t;
    assert Apply(ME, t, LookUp) == T6.(pass := Some(Pass(5, NotManaged)));
    ExecuteThree(ME, T5, Relabel(8, false, ""), Begin(5), LookUp);
  }

  lemma AllocatesLonger()
    ensures Apply(ME, T6.(pass := Some(Pass(5, NotManaged))), Allocate(12)) == T6.(pass := Some(Pass(5, Patching(U6))))
  {
  }

  lemma PlacesAnew()
    ensures Execute(ME, T6.(pass := Some(Pass(5, NotManaged))), [Allocate(12), Land, Crash]) == T7
  {
    AllocatesLonger();
    assert Apply(ME, T7, Crash) == T7;
    hide LookUpCall, CreateCall, DeleteCall, CleanUpCall, ReleaseCall, Deletion, Surroundings, Owns, Decision;
    var u := T6.(pass := Some(Pass(5, Patching(U6))));
    assert u.versions + [U6] == T7.versions;
    assert Apply(ME, u, Land) == T7;
    hide Apply;
    ExecuteThree(ME, T6.(pass := Some(Pass(5, NotManaged))), Allocate(12), Land, Crash);
  }

  lemma Moves()
    ensures Execute(ME, T5, MOVE) == T7
  {
    hide Apply, Execute;
    PlacesAnew();
    FindsForeign();
    ExecuteConcat(ME, T5, [Relabel(8, false, ""), Begin(5), LookUp], [Allocate(12), Land, Crash]);
  }

  const MOVING := FINALIZE + ALLOCATE + BIND + WORK_ON + STALE + MOVE

  /** The target of a bound environment with work, never deleted, may move away from its work. */
  lemma TargetMayMove()
    ensures var s := Execute(ME, INITIAL, MOVING);
      && |s.versions| == 7 && s.works == [3]
      && s.versions[3].bound && s.versions[3].target == Some(8) && s.versions[6].target == Some(12)
      && forall i | 0 <= i < |s.versions| :: !s.versions[i].deleting
  {
    Finalizes();
    Allocates();
    Binds();
    WorksOn();
    LosesAlive();
    Moves();
    hide Execute, Apply;
    ExecuteConcat(ME, INITIAL, FINALIZE, ALLOCATE);
    ExecuteConcat(ME, INITIAL, FINALIZE + ALLOCATE, BIND);
    ExecuteConcat(ME, INITIAL, FINALIZE + ALLOCATE + BIND, WORK_ON);
    ExecuteConcat(ME, INITIAL, FINALIZE + ALLOCATE + BIND + WORK_ON, STALE);
    ExecuteConcat(ME, INITIAL, FINALIZE + ALLOCATE + BIND + WORK_ON + STALE, MOVE);
  }

  // ---- bound at the release, and never cleaned up ---------------------------------------------

  const UNMANAGED := "NamespaceNotManaged"
  const R7 := E6.(bound := true, ready := UNMANAGED)
  const R8 := R7.(finalizer := false)
  const Q6 := Held([CREATED, E1, E2, E3, E3, E5, E6], map[8 := FOREIGN], 2, [3])
  const Q7 := Held([CREATED, E1, E2, E3, E3, E5, E6, R7], map[8 := FOREIGN], 2, [3])
  const Q8 := Q7.(versions := Q7.versions + [R8], gone := true, releases := [6])
  const LOOK := [Relabel(8, false, ""), Begin(5), LookUp]
  const REBIND := [SetFailed(UNMANAGED), Land, Begin(6)]
  const SLIP := [LookUp, Release, Crash]

  /** A pass over a bound read finds the namespace taken away. */
  lemma FindsItTaken()
    ensures Execute(ME, S6, LOOK) == Q6.(pass := Some(Pass(5, NotManaged)))
  {
    assert Apply(ME, S6, Relabel(8, false, "")) == Q6;
    var t := Q6.(pass := Some(Pass(5, Begun)));
    assert Apply(ME, Q6, Begin(5)) == t;
    assert Apply(ME, t, LookUp) == Q6.(pass := Some(Pass(5, NotManaged)));
    hide Apply;
    ExecuteThree(ME, S6, Relabel(8, false, ""), Begin(5), LookUp);
  }

  lemma PatchRebinds()
    ensures var u := Q6.(pass := Some(Pass(5, Patching(E5.(ready := UNMANAGED)))));
      Apply(ME, Q6.(pass := Some(Pass(5, NotManaged))), SetFailed(UNMANAGED)) == u && Apply(ME, u, Land) == Q7
  {
    hide LookUpCall, CreateCall, DeleteCall, CleanUpCall, ReleaseCall, Deletion, Surroundings, Owns;
    assert Q6.versions + [R7] == Q7.versions;
  }

  /** Its patch brings the flag back; the next pass reads the version before. */
  lemma Rebinds()
    ensures Execute(ME, Q6.(pass := Some(Pass(5, NotManaged))), REBIND) == Q7.(pass := Some(Pass(6, Begun)))
  {
    PatchRebinds();
    assert Apply(ME, Q7, Begin(6)) == Q7.(pass := Some(Pass(6, Begun)));
    hide Apply;
    ExecuteThree(ME, Q6.(pass := Some(Pass(5, NotManaged))), SetFailed(UNMANAGED), Land, Begin(6));
  }

  lemma SeesNothingOwned()
    ensures Apply(ME, Q7.(pass := Some(Pass(6, Begun))), LookUp) == Q7.(pass := Some(Pass(6, Releasing)))
  {
    hide CreateCall, DeleteCall, CleanUpCall, ReleaseCall, Deletion, Surroundings, LandCall, Decision;
  }

  /** To that one the environment has nothing of its own, and no flag. */
  lemma Slipping()
    ensures Execute(ME, Q7.(pass := Some(Pass(6, Begun))), SLIP) == Q8
  {
    SeesNothingOwned();
    assert Apply(ME, Q8, Crash) == Q8;
    hide LookUpCall, CreateCall, DeleteCall, CleanUpCall, Deletion, Surroundings, LandCall, Decision, Owns;
    assert Apply(ME, Q7.(pass := Some(Pass(6, Releasing))), Release) == Q8;
    hide Apply;
    ExecuteThree(ME, Q7.(pass := Some(Pass(6, Begun))), LookUp, Release, Crash);
  }

  const SLIPPING := FINALIZE + ALLOCATE + BIND + WORK + STALE + LOOK + REBIND + SLIP

  /** An environment with work is released while it is bound, and nobody ever set CleanupComplete. */
  lemma BoundMayBeReleased()
    ensures var s := Execute(ME, INITIAL, SLIPPING);
      && s.gone && s.works == [3] && s.releases == [6] && s.cleanups == []
      && |s.versions| == 9 && s.versions[7].bound && s.versions[7].finalizer && s.versions[8].bound
         && !s.versions[8].finalizer
      && !EverCompleted(s.versions) && !InOrder(s.versions, 0)
  {
    Finalizes();
    Allocates();
    Binds();
    Works();
    Clobbered();
    FindsItTaken();
    Rebinds();
    Slipping();
    hide Execute, Apply;
    ExecuteConcat(ME, INITIAL, FINALIZE, ALLOCATE);
    ExecuteConcat(ME, INITIAL, FINALIZE + ALLOCATE, BIND);
    ExecuteConcat(ME, INITIAL, FINALIZE + ALLOCATE + BIND, WORK);
    ExecuteConcat(ME, INITIAL, FINALIZE + ALLOCATE + BIND + WORK, STALE);
    ExecuteConcat(ME, INITIAL, FINALIZE + ALLOCATE + BIND + WORK + STALE, LOOK);
    ExecuteConcat(ME, INITIAL, FINALIZE + ALLOCATE + BIND + WORK + STALE + LOOK, REBIND);
    ExecuteConcat(ME, INITIAL, FINALIZE + ALLOCATE + BIND + WORK + STALE + LOOK + REBIND, SLIP);
    OutOfOrder();
  }

  lemma OutOfOrder()
    ensures !EverCompleted(Q8.versions) && !InOrder(Q8.versions, 0)
  {
    var before := Q8.versions[..8];
    assert before[7] == R7 && Q8.versions[7] == R7 && Q8.versions[8] == R8;
    assert EverBound(before) && !EverCompleted(before);
    assert !OrderlyAt(Q8.versions, 7);
  }
}
