/** What holds of every run, however stale the reads. */
module LifecycleSafety {
  import opened Wrappers
  import opened Lifecycle

  /** From one version of the environment to the next. */
  predicate Succeeds(a: Env, b: Env) {
    && (a.deleting ==> b.deleting)
    && (b.target == a.target || (!a.bound && b.target.Some? && (a.target.Some? ==> a.target.value < b.target.value)))
  }

  /** A target is one of the lengths, and what is bound has a target. */
  predicate Placed(e: Env) {
    (e.target.Some? ==> IsLength(e.target.value)) && (e.bound ==> e.target.Some?)
  }

  ghost predicate History(versions: seq<Env>) {
    && versions != [] && versions[0] == CREATED
    && (forall i | 0 <= i < |versions| :: Placed(versions[i]))
    && (forall i | 0 <= i < |versions| - 1 :: Succeeds(versions[i], versions[i + 1]))
  }

  /** What a status patch may change of what was read. */
  predicate PatchSound(r: Env, e: Env) {
    || e == r.(ready := e.ready)
    || (e == r.(target := e.target) && !r.deleting && !r.bound && e.target.Some? && IsLength(e.target.value)
        && (r.target.Some? ==> r.target.value < e.target.value))
    || (e == r.(bound := true) && !r.deleting && !r.bound && r.target.Some?)
    || (e == r.(cleanup := true) && r.deleting && !r.cleanup && r.target.Some?)
  }

  /** A namespace that was read is what it was as long as its version is. */
  predicate Fresh(s: State, n: nat, ns: Namespace) {
    && ns.version < s.next
    && (n in s.namespaces && s.namespaces[n].version == ns.version ==> s.namespaces[n] == ns)
  }

  ghost predicate StageSound(me: string, s: State, r: Env, g: Stage) {
    match g
    case Begun => true
    case Creating => !r.deleting && r.target.Some? && !r.bound
    case Taken => !r.deleting && r.target.Some? && !r.bound
    case NotManaged => r.target.Some? && (r.deleting ==> r.bound)
    case Owned => r.target.Some? && (r.deleting ==> !r.cleanup)
    case Removing(ns) => r.deleting && r.cleanup && r.target.Some? && Owns(me, ns) && Fresh(s, r.target.value, ns)
    case Releasing => r.deleting && (r.bound ==> r.cleanup)
    case Patching(e) => PatchSound(r, e)
  }

  predicate WorkSound(versions: seq<Env>, v: nat) {
    v < |versions| && versions[v].bound && !versions[v].deleting && versions[v].target.Some?
  }

  predicate CleanupSound(versions: seq<Env>, c: Cleanup) {
    && c.read < |versions| && versions[c.read].deleting
    && (c.template && versions[c.read].bound ==> c.undeployed && c.deprovisioned)
  }

  predicate ReleaseSound(versions: seq<Env>, v: nat) {
    v < |versions| && versions[v].deleting && (versions[v].bound ==> versions[v].cleanup)
  }

  ghost predicate Recorded(me: string, s: State) {
    && (forall v | v in s.works :: WorkSound(s.versions, v))
    && (forall ns | ns in s.deleted :: Owns(me, ns))
    && (forall c | c in s.cleanups :: CleanupSound(s.versions, c))
    && (forall v | v in s.releases :: ReleaseSound(s.versions, v))
  }

  ghost predicate Inv(me: string, s: State) {
    && History(s.versions)
    && (forall n | n in s.namespaces :: s.namespaces[n].version < s.next)
    && (s.pass.Some? ==> Reading(s) && StageSound(me, s, ReadBy(s), s.pass.value.stage))
    && Recorded(me, s)
  }

  // ---- the pieces -----------------------------------------------------------------------

  lemma PushKeepsHistory(versions: seq<Env>, e: Env)
    requires History(versions) && Succeeds(versions[|versions| - 1], e)
    requires Placed(e)
    ensures History(versions + [e])
  {
    var more := versions + [e];
    forall i | 0 <= i < |more| - 1 ensures Succeeds(more[i], more[i + 1]) {
      if i < |versions| - 1 { assert Succeeds(versions[i], versions[i + 1]); }
    }
  }

  /** Deletion is for good. */
  lemma {:induction false} DeletionIsPermanent(versions: seq<Env>, i: nat, j: nat)
    requires History(versions) && i <= j < |versions| && versions[i].deleting
    ensures versions[j].deleting
    decreases j
  {
    if i < j {
      DeletionIsPermanent(versions, i, j - 1);
      assert Succeeds(versions[j - 1], versions[j]);
    }
  }

  /** So is having a target. */
  lemma {:induction false} TargetIsPermanent(versions: seq<Env>, i: nat, j: nat)
    requires History(versions) && i <= j < |versions| && versions[i].target.Some?
    ensures versions[j].target.Some? && versions[i].target.value <= versions[j].target.value
    decreases j
  {
    if i < j {
      TargetIsPermanent(versions, i, j - 1);
      assert Succeeds(versions[j - 1], versions[j]);
    }
  }

  lemma RecordsSurvive(me: string, s: State, t: State)
    requires Recorded(me, s) && s.versions <= t.versions
    requires t.works == s.works && t.deleted == s.deleted && t.cleanups == s.cleanups && t.releases == s.releases
    ensures Recorded(me, t)
  {
    hide Owns;
    forall v | v in s.works ensures WorkSound(t.versions, v) { assert WorkSound(s.versions, v); }
    forall c | c in s.cleanups ensures CleanupSound(t.versions, c) { assert CleanupSound(s.versions, c); }
    forall v | v in s.releases ensures ReleaseSound(t.versions, v) { assert ReleaseSound(s.versions, v); }
  }

  /** Namespaces only change together with their version. */
  ghost predicate Versioned(s: State, t: State) {
    && s.next <= t.next
    && (forall n | n in t.namespaces :: t.namespaces[n].version < t.next)
    && (forall n | n in t.namespaces ::
          t.namespaces[n].version >= s.next || (n in s.namespaces && t.namespaces[n] == s.namespaces[n]))
  }

  lemma StageSurvives(me: string, s: State, t: State, r: Env, g: Stage)
    requires StageSound(me, s, r, g) && Versioned(s, t)
    ensures StageSound(me, t, r, g)
  {
    hide Owns, PatchSound;
  }

  // ---- everyone else --------------------------------------------------------------------

  lemma SurroundingsVersioned(s: State, a: Action)
    requires s.versions != [] && forall n | n in s.namespaces :: s.namespaces[n].version < s.next
    ensures var t := Surroundings(s, a);
      && Versioned(s, t) && t.pass == s.pass
      && t.works == s.works && t.deleted == s.deleted && t.cleanups == s.cleanups && t.releases == s.releases
  {
  }

  lemma SurroundingsKeepHistory(s: State, a: Action)
    requires History(s.versions)
    ensures var t := Surroundings(s, a); History(t.versions) && s.versions <= t.versions
  {
    var t := Surroundings(s, a);
    CurrentIsPlaced(s.versions);
    hide History, IsLength;
    if t.versions != s.versions { PushKeepsHistory(s.versions, t.versions[|s.versions|]); }
  }

  lemma SurroundingsKeepInv(me: string, s: State, a: Action)
    requires Inv(me, s)
    ensures Inv(me, Surroundings(s, a)) && Surroundings(s, a).pass == s.pass
  {
    hide StageSound, Recorded, Surroundings, Succeeds, Placed;
    var t := Surroundings(s, a);
    SurroundingsVersioned(s, a);
    SurroundingsKeepHistory(s, a);
    hide History;
    RecordsSurvive(me, s, t);
    if s.pass.Some? { StageSurvives(me, s, t, ReadBy(s), s.pass.value.stage); }
  }

  // ---- the pass -------------------------------------------------------------------------

  lemma AtKeepsInv(me: string, s: State, p: Pass, stage: Stage)
    requires Inv(me, s) && s.pass == Some(p) && StageSound(me, s, ReadBy(s), stage)
    ensures Inv(me, At(s, p, stage))
  {
    hide History, Owns, PatchSound;
    var t := At(s, p, stage);
    RecordsSurvive(me, s, t);
    assert Versioned(s, t);
    StageSurvives(me, s, t, ReadBy(s), stage);
    hide StageSound, Recorded, Fresh;
  }

  lemma ReadIsPlaced(me: string, s: State, p: Pass)
    requires Inv(me, s) && s.pass == Some(p)
    ensures Placed(ReadBy(s)) && StageSound(me, s, ReadBy(s), p.stage)
  {
    hide Recorded, StageSound, Placed, Succeeds;
  }

  /** The steps that only decide. */
  lemma DecisionKeepsInv(me: string, s: State, p: Pass, a: Action)
    requires Inv(me, s) && s.pass == Some(p)
    requires a.GiveUp? || a.Allocate? || a.SetFailed? || a.Bind?
    ensures Inv(me, PassStep(me, s, p, ReadBy(s), a))
  {
    var r := ReadBy(s);
    ReadIsPlaced(me, s, p);
    hide Inv, Owns, IsLength, History, Recorded, Fresh, Succeeds;
    assert StageSound(me, s, r, Decision(me, p, r, a));
    AtKeepsInv(me, s, p, Decision(me, p, r, a));
  }

  lemma LookUpKeepsInv(me: string, s: State, p: Pass)
    requires Inv(me, s) && s.pass == Some(p)
    ensures Inv(me, PassStep(me, s, p, ReadBy(s), LookUp))
  {
    var r := ReadBy(s);
    var t := PassStep(me, s, p, r, LookUp);
    ReadIsPlaced(me, s, p);
    LiveIsFresh(me, s);
    hide Inv, Owns, IsLength, History, Recorded, Fresh, Succeeds;
    if t != s {
      assert t == At(s, p, t.pass.value.stage);
      assert StageSound(me, s, r, t.pass.value.stage);
      AtKeepsInv(me, s, p, t.pass.value.stage);
    }
  }

  lemma LiveIsFresh(me: string, s: State)
    requires Inv(me, s)
    ensures forall n | n in s.namespaces :: Fresh(s, n, s.namespaces[n])
  {
    hide History, Recorded, StageSound;
  }

  lemma CreateKeepsStage(me: string, s: State, p: Pass)
    requires Inv(me, s) && s.pass == Some(p) && ReadBy(s).target.Some?
    ensures var t := CreateCall(me, s, p, ReadBy(s));
      && t.pass.Some? && t == At(t.(pass := s.pass), p, t.pass.value.stage)
      && StageSound(me, s, ReadBy(s), t.pass.value.stage)
      && Versioned(s, t) && t.versions == s.versions
      && t.works == s.works && t.deleted == s.deleted && t.cleanups == s.cleanups && t.releases == s.releases
  {
    hide History, Recorded, Owns, Fresh;
    assert StageSound(me, s, ReadBy(s), p.stage);
  }

  lemma CreateKeepsInv(me: string, s: State, p: Pass)
    requires Inv(me, s) && s.pass == Some(p)
    ensures Inv(me, PassStep(me, s, p, ReadBy(s), Create))
  {
    var r := ReadBy(s);
    if r.target.Some? {
      CreateKeepsStage(me, s, p);
      hide History, Recorded, StageSound, CreateCall;
      var t := CreateCall(me, s, p, r);
      var mid := t.(pass := s.pass);
      RecordsSurvive(me, s, mid);
      StageSurvives(me, s, mid, r, p.stage);
      StageSurvives(me, s, mid, r, t.pass.value.stage);
      AtKeepsInv(me, mid, p, t.pass.value.stage);
    }
  }

  // ---- what goes on record -----------------------------------------------------------------

  lemma DeleteKeepsStage(me: string, s: State, p: Pass)
    requires Inv(me, s) && s.pass == Some(p) && p.stage.Removing?
    ensures ReadBy(s).target.Some?
    ensures var t := DeleteCall(s, p, ReadBy(s), p.stage.ns);
      && t.pass.Some? && t == At(t.(pass := s.pass), p, t.pass.value.stage) && t.versions == s.versions
      && StageSound(me, t.(pass := s.pass), ReadBy(s), t.pass.value.stage)
      && Versioned(s, t.(pass := s.pass))
  {
    hide History, Recorded, Owns, Fresh;
    assert StageSound(me, s, ReadBy(s), p.stage);
  }

  lemma DeleteKeepsInv(me: string, s: State, p: Pass)
    requires Inv(me, s) && s.pass == Some(p)
    ensures Inv(me, PassStep(me, s, p, ReadBy(s), DeleteNamespace))
  {
    hide History, Recorded, StageSound, DeleteCall;
    var r := ReadBy(s);
    if p.stage.Removing? {
      DeleteKeepsStage(me, s, p);
      var t := DeleteCall(s, p, r, p.stage.ns);
      var mid := t.(pass := s.pass);
      DeletedIsOwned(me, s, p, mid);
      StageSurvives(me, s, mid, r, p.stage);
      AtKeepsInv(me, mid, p, t.pass.value.stage);
    }
  }

  /** A deletion that commits meets the very namespace that was read. */
  lemma DeletedIsOwned(me: string, s: State, p: Pass, t: State)
    requires Inv(me, s) && s.pass == Some(p) && p.stage.Removing?
    requires t == DeleteCall(s, p, ReadBy(s), p.stage.ns).(pass := s.pass)
    ensures Recorded(me, t)
  {
    hide History, Owns;
    var n := ReadBy(s).target.value;
    assert Fresh(s, n, p.stage.ns) && Owns(me, p.stage.ns);
    assert t.deleted != s.deleted ==> t.deleted == s.deleted + [p.stage.ns];
  }

  lemma WorkKeepsInv(me: string, s: State, p: Pass)
    requires Inv(me, s) && s.pass == Some(p)
    ensures Inv(me, PassStep(me, s, p, ReadBy(s), Work))
  {
    var r := ReadBy(s);
    ReadIsPlaced(me, s, p);
    var t := PassStep(me, s, p, r, Work);
    hide History, Owns, Succeeds, Placed;
    assert Recorded(me, t);
    assert Versioned(s, t);
    StageSurvives(me, s, t, r, p.stage);
    hide StageSound, Recorded;
  }

  lemma CleanUpKeepsInv(me: string, s: State, p: Pass, c: Cleanup)
    requires Inv(me, s) && s.pass == Some(p) && p.stage.Owned? && ReadBy(s).deleting
    requires !ReadBy(s).cleanup && c.read == p.read
    ensures Inv(me, CleanUpCall(s, p, ReadBy(s), c))
  {
    var r := ReadBy(s);
    ReadIsPlaced(me, s, p);
    var t := CleanUpCall(s, p, r, c);
    var mid := t.(pass := s.pass);
    hide History, Owns, Succeeds, Placed;
    assert Recorded(me, mid);
    assert Versioned(s, mid);
    StageSurvives(me, s, mid, r, p.stage);
    assert t == At(mid, p, t.pass.value.stage);
    assert StageSound(me, mid, r, t.pass.value.stage);
    hide StageSound, Recorded;
    AtKeepsInv(me, mid, p, t.pass.value.stage);
  }

  // ---- what the server takes -----------------------------------------------------------------

  /** A pass that ends, with or without a new version of the environment. */
  lemma EndKeepsInv(me: string, s: State, t: State)
    requires Inv(me, s) && History(t.versions) && s.versions <= t.versions
    requires t.namespaces == s.namespaces && t.next == s.next && t.pass.None?
    requires t.works == s.works && t.deleted == s.deleted && t.cleanups == s.cleanups
    requires t.releases == s.releases || (exists v :: t.releases == s.releases + [v] && ReleaseSound(s.versions, v))
    ensures Inv(me, t)
  {
    hide History, StageSound, Owns;
    RecordsSurvive(me, s, t.(releases := s.releases));
    if t.releases != s.releases {
      var v :| t.releases == s.releases + [v] && ReleaseSound(s.versions, v);
      assert ReleaseSound(t.versions, v);
    }
  }

  /** What a status patch makes of the environment is a version that may follow. */
  lemma LandedSucceeds(me: string, s: State, p: Pass)
    requires Inv(me, s) && s.pass == Some(p) && p.stage.Patching?
    ensures var t := LandCall(s, p, ReadBy(s), p.stage.env); History(t.versions) && s.versions <= t.versions
  {
    var r := ReadBy(s);
    var t := LandCall(s, p, r, p.stage.env);
    ReadIsPlaced(me, s, p);
    CurrentIsPlaced(s.versions);
    hide Recorded, Fresh, Owns, IsLength;
    if r.bound { TargetIsPermanent(s.versions, p.read, |s.versions| - 1); }
    hide History;
    if t.versions != s.versions { PushKeepsHistory(s.versions, t.versions[|s.versions|]); }
  }

  lemma CurrentIsPlaced(versions: seq<Env>)
    requires History(versions)
    ensures Placed(versions[|versions| - 1])
  {
  }

  lemma LandKeepsInv(me: string, s: State, p: Pass)
    requires Inv(me, s) && s.pass == Some(p)
    ensures Inv(me, PassStep(me, s, p, ReadBy(s), Land))
  {
    if p.stage.Patching? {
      LandedSucceeds(me, s, p);
      var t := LandCall(s, p, ReadBy(s), p.stage.env);
      assert t.pass.None? && t.(versions := s.versions, pass := s.pass) == s;
      hide Inv, LandCall;
      EndKeepsInv(me, s, t);
    }
  }

  /** The main resource: the finalizer comes and goes. */
  lemma FinalizerKeepsInv(me: string, s: State, p: Pass, a: Action)
    requires Inv(me, s) && s.pass == Some(p) && (a.AddFinalizer? || a.Release? || a.Crash?)
    ensures Inv(me, PassStep(me, s, p, ReadBy(s), a))
  {
    var t := PassStep(me, s, p, ReadBy(s), a);
    CurrentIsPlaced(s.versions);
    ReleasingIsSound(me, s, p);
    hide Recorded, Fresh, Owns, IsLength, History, Inv, StageSound;
    if t != s {
      if t.versions != s.versions { PushKeepsHistory(s.versions, t.versions[|s.versions|]); }
      EndKeepsInv(me, s, t);
    }
  }

  lemma ReleasingIsSound(me: string, s: State, p: Pass)
    requires Inv(me, s) && s.pass == Some(p)
    ensures History(s.versions) && (p.stage.Releasing? ==> ReleaseSound(s.versions, p.read))
  {
    hide History, Recorded;
  }

  lemma ExpiryKeepsInv(me: string, s: State, p: Pass)
    requires Inv(me, s) && s.pass == Some(p)
    ensures Inv(me, PassStep(me, s, p, ReadBy(s), Expire))
  {
    SurroundingsKeepInv(me, s, UserDelete);
    var t := Deletion(s);
    assert t == Surroundings(s, UserDelete);
    VersionsGrow(me, s.(pass := None), UserDelete);
    assert ReadBy(s) == ReadBy(t) by { assert s.versions <= t.versions; }
    hide Inv, Deletion;
    assert StageSound(me, t, ReadBy(t), Patching(ReadBy(t)));
    AtKeepsInv(me, t, p, Patching(ReadBy(t)));
  }

  lemma StepKeepsInv(me: string, s: State, a: Action)
    requires Inv(me, s)
    ensures Inv(me, Apply(me, s, a))
  {
    SurroundingsKeepInv(me, s, a);
    if a.Begin? {
      BeginKeepsInv(me, s, a);
    } else if s.pass.Some? {
      var p := s.pass.value;
      hide Inv, Surroundings;
      match a {
        case GiveUp => DecisionKeepsInv(me, s, p, a);
        case Allocate(_) => DecisionKeepsInv(me, s, p, a);
        case SetFailed(_) => DecisionKeepsInv(me, s, p, a);
        case Bind => DecisionKeepsInv(me, s, p, a);
        case LookUp => LookUpKeepsInv(me, s, p);
        case Create => CreateKeepsInv(me, s, p);
        case DeleteNamespace => DeleteKeepsInv(me, s, p);
        case Work => WorkKeepsInv(me, s, p);
        case CleanUp(_, _, _) =>
          if p.stage.Owned? && ReadBy(s).deleting && !ReadBy(s).cleanup { CleanUpKeepsInv(me, s, p, CleanupOf(p, a)); }
        case Land => LandKeepsInv(me, s, p);
        case AddFinalizer => FinalizerKeepsInv(me, s, p, a);
        case Release => FinalizerKeepsInv(me, s, p, a);
        case Crash => FinalizerKeepsInv(me, s, p, a);
        case Expire => ExpiryKeepsInv(me, s, p);
        case _ =>
      }
    }
  }

  lemma BeginKeepsInv(me: string, s: State, a: Action)
    requires Inv(me, s) && a.Begin?
    ensures Inv(me, Apply(me, s, a))
  {
    assert s.versions != [];
    hide History, Recorded;
    RecordsSurvive(me, s, Apply(me, s, a));
  }

  lemma {:induction false} RunKeepsInv(me: string, s: State, run: seq<Action>)
    requires Inv(me, s)
    ensures Inv(me, Execute(me, s, run))
    decreases |run|
  {
    if run != [] {
      StepKeepsInv(me, s, run[0]);
      hide Inv, Apply;
      VersionsGrow(me, s, run[0]);
      RunKeepsInv(me, Apply(me, s, run[0]), run[1..]);
    }
  }

  lemma StartIsSound(me: string)
    ensures Inv(me, INITIAL)
  {
  }
}
