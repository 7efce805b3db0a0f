/** undeployAll: releases are uninstalled level by level, last level first. */
module Undeploy {
  import opened Wrappers
  import opened Template
  import opened DependencyGraph
  import opened Kahn
  import opened ComponentStatus
  import E = Environment
  import opened Deploy
  import opened DeployMoves

  type Levels = seq<seq<ComponentSpec>>

  /** What the undeploy Job of a component is observed as. */
  type Sightings = string -> Observed

  const UNDEPLOY := "undeploy: "

  /** The retries of an uninstall were used up before. */
  predicate Forced(e: Entry) {
    e.retries >= MAX_DEPLOY_RETRIES && UNDEPLOY <= e.reason
  }

  function StateOf(cs: seq<Entry>, c: ComponentSpec, seen: Sightings): Observed {
    if IsShared(c) || Forced(Get(cs, c.name)) then JobSucceeded else seen(c.name)
  }

  datatype Sweep = Sweep(components: seq<Entry>, done: bool, need: seq<ComponentSpec>, ok: bool)

  function SweepOne(w: Sweep, c: ComponentSpec, state: Observed): Sweep {
    match state
    case ObserveError => w.(ok := false)
    case JobSucceeded => w
    case JobRunning => w.(done := false)
    case JobPending => w.(done := false, need := w.need + [c])
    case JobFailed(reason) =>
      var u := w.(components := RecordFailure(w.components, c.name, UNDEPLOY + reason));
      if Exhausts(w.components, c.name) then u else u.(done := false, need := w.need + [c])
  }

  /** cs is the status when the level was observed. */
  function SweepAll(w: Sweep, level: seq<ComponentSpec>, cs: seq<Entry>, seen: Sightings): Sweep
    decreases |level|
  {
    if level == [] || !w.ok then w
    else SweepAll(SweepOne(w, level[0], StateOf(cs, level[0], seen)), level[1..], cs, seen)
  }

  function LevelSweep(cs: seq<Entry>, level: seq<ComponentSpec>, seen: Sightings): Sweep {
    SweepAll(Sweep(cs, true, [], true), level, cs, seen)
  }

  datatype Verdict = Done | Waiting | Broken

  /** submitted: the components handed to submitUndeployLevel. */
  datatype Teardown = Teardown(components: seq<Entry>, submitted: seq<ComponentSpec>, verdict: Verdict)

  /** accepts: is the submit of this component answered without an error? */
  function TearDown(cs: seq<Entry>, levels: Levels, seen: Sightings, accepts: string -> bool): Teardown
    decreases |levels|
  {
    if levels == [] then Teardown(cs, [], Done)
    else
      var w := LevelSweep(cs, levels[|levels| - 1], seen);
      if !w.ok then Teardown(w.components, [], Broken)
      else if exists c | c in w.need :: !accepts(c.name) then Teardown(w.components, w.need, Broken)
      else if !w.done then Teardown(w.components, w.need, Waiting)
      else TearDown(w.components, levels[..|levels| - 1], seen, accepts)
  }

  // ---- as it runs -------------------------------------------------------------------

  method ObserveStates(env: E.Env, level: seq<ComponentSpec>, seen: Sightings) returns (states: array<Observed>)
    ensures fresh(states) && states.Length == |level|
    ensures forall i | 0 <= i < |level| :: states[i] == StateOf(env.components, level[i], seen)
  {
    states := new Observed[|level|](_ => JobPending);
    for i := 0 to |level|
      invariant forall j | 0 <= j < i :: states[j] == StateOf(env.components, level[j], seen)
    {
      var k := env.FindComponent(level[i].name);
      if IsShared(level[i]) {
        states[i] := JobSucceeded;
      } else if k < |env.components| && env.components[k].retries >= MAX_DEPLOY_RETRIES
                && UNDEPLOY <= env.components[k].reason {
        states[i] := JobSucceeded;
      } else {
        states[i] := seen(level[i].name);
      }
    }
  }

  method ObserveUndeployLevel(env: E.Env, level: seq<ComponentSpec>, seen: Sightings)
    returns (ok: bool, levelDone: bool, needSubmit: seq<ComponentSpec>)
    modifies env
    ensures env.Now() == old(env.Now()).(components := env.components)
    ensures var w := LevelSweep(old(env.components), level, seen);
      env.components == w.components && ok == w.ok && (ok ==> levelDone == w.done && needSubmit == w.need)
  {
    hide StateOf;
    var states := ObserveStates(env, level, seen);
    ghost var cs, now := env.components, env.Now();
    ok, levelDone, needSubmit := true, true, [];
    for i := 0 to |level|
      invariant env.Now() == now.(components := env.components)
      invariant forall j | 0 <= j < |level| :: states[j] == StateOf(cs, level[j], seen)
      invariant LevelSweep(cs, level, seen) ==
                SweepAll(Sweep(env.components, levelDone, needSubmit, true), level[i..], cs, seen)
    {
      assert level[i..][1..] == level[i + 1..];
      match states[i] {
        case ObserveError => return false, false, [];
        case JobSucceeded =>
        case JobRunning => levelDone := false;
        case JobPending =>
          needSubmit := needSubmit + [level[i]];
          levelDone := false;
        case JobFailed(reason) =>
          FailureCounts(env.components, level[i].name, UNDEPLOY + reason);
          var exhausted := env.RecordRuntimeFailure(level[i].name, UNDEPLOY + reason);
          if !exhausted {
            needSubmit := needSubmit + [level[i]];
            levelDone := false;
          }
      }
    }
  }

  lemma FailureCounts(cs: seq<Entry>, name: string, reason: string)
    ensures Get(RecordFailure(cs, name, reason), name).retries == Wrap32(Get(cs, name).retries + 1)
  {
    var e := Get(cs, name);
    PutIsUpdate(cs, e.(retries := Wrap32(e.retries + 1), phase := Pending, since := None, reason := reason), name);
  }

  /** Every submit is made, an error of one keeps none of the others back. */
  method SubmitUndeployLevel(need: seq<ComponentSpec>, accepts: string -> bool) returns (ok: bool)
    ensures ok <==> forall c | c in need :: accepts(c.name)
  {
    ok := true;
    for i := 0 to |need|
      invariant ok <==> forall j | 0 <= j < i :: accepts(need[j].name)
    {
      ok := accepts(need[i].name) && ok;
    }
    if !ok {
      var j :| 0 <= j < |need| && !accepts(need[j].name);
      assert need[j] in need;
    }
  }

  /** `levels` is what undeployAll went by, `submitted` what it handed to submitUndeployLevel. */
  method UndeployAll(env: E.Env, components: seq<ComponentSpec>, seen: Sightings, accepts: string -> bool)
    returns (verdict: Verdict, ghost levels: Levels, ghost submitted: seq<ComponentSpec>)
    modifies env
    ensures env.Now() == old(env.Now()).(components := env.components)
    ensures Teardown(env.components, submitted, verdict) == TearDown(old(env.components), levels, seen, accepts)
    ensures if UniqueNames(components) && KnownDependencies(components) && Acyclic(components)
      then ExactLevels(components, levels) else levels == [components]
  {
    hide UniqueNames, KnownDependencies, Acyclic, ExactLevels, LevelSweep;
    var built := BuildLevels(components);
    var componentsByLevel := if built.Ok? then built.value else [components];
    levels := componentsByLevel;
    ghost var cs, now := env.components, env.Now();
    var l := |componentsByLevel|;
    assert componentsByLevel[..l] == componentsByLevel;
    while l > 0
      invariant 0 <= l <= |componentsByLevel|
      invariant env.Now() == now.(components := env.components)
      invariant TearDown(cs, componentsByLevel, seen, accepts) ==
                TearDown(env.components, componentsByLevel[..l], seen, accepts)
    {
      l := l - 1;
      assert componentsByLevel[..l + 1][..l] == componentsByLevel[..l];
      var ok, levelDone, needSubmit := ObserveUndeployLevel(env, componentsByLevel[l], seen);
      if !ok { return Broken, levels, []; }
      if needSubmit != [] {
        var sent := SubmitUndeployLevel(needSubmit, accepts);
        if !sent { return Broken, levels, needSubmit; }
      }
      if !levelDone { return Waiting, levels, needSubmit; }
    }
    return Done, levels, [];
  }

  // ---- the order ----------------------------------------------------------------------

  /** Nothing of a component is left to wait for: it is shared, it was given up, it is
      observed uninstalled, or its last retry just failed. */
  predicate Gone(c: ComponentSpec, e: Entry, o: Observed) {
    IsShared(c) || Forced(e) || o.JobSucceeded? || (o.JobFailed? && Wrap32(e.retries + 1) >= MAX_DEPLOY_RETRIES)
  }

  predicate AllGone(level: seq<ComponentSpec>, cs: seq<Entry>, seen: Sightings) {
    forall c | c in level :: Gone(c, Get(cs, c.name), seen(c.name))
  }

  lemma FailureRewrites(cs: seq<Entry>, name: string, reason: string)
    ensures forall n | n != name :: Get(RecordFailure(cs, name, reason), n) == Get(cs, n)
  {
    var e := Get(cs, name);
    PutRewrites(cs, e.(retries := Wrap32(e.retries + 1), phase := Pending, since := None, reason := reason));
  }

  lemma SweepOneMeans(w: Sweep, c: ComponentSpec, cs: seq<Entry>, seen: Sightings)
    requires w.ok && (w.done ==> w.need == []) && Get(w.components, c.name) == Get(cs, c.name)
    ensures var u := SweepOne(w, c, StateOf(cs, c, seen));
      && (u.ok && u.done <==> w.done && Gone(c, Get(cs, c.name), seen(c.name)))
      && (u.ok && u.done ==> u.need == [])
      && (u.need == w.need || u.need == w.need + [c])
      && (forall n | n != c.name :: Get(u.components, n) == Get(w.components, n))
  {
    hide Get, Wrap32, Forced, RecordFailure;
    if StateOf(cs, c, seen).JobFailed? {
      FailureRewrites(w.components, c.name, UNDEPLOY + StateOf(cs, c, seen).reason);
    }
  }

  lemma {:induction false} SweepMeans(w: Sweep, level: seq<ComponentSpec>, cs: seq<Entry>, seen: Sightings)
    requires UniqueNames(level) && w.ok && (w.done ==> w.need == [])
    requires forall c | c in level :: Get(w.components, c.name) == Get(cs, c.name)
    ensures var u := SweepAll(w, level, cs, seen);
      && (u.ok && u.done <==> w.done && AllGone(level, cs, seen))
      && (u.ok && u.done ==> u.need == [])
      && (forall c | c in u.need :: c in w.need || c in level)
      && (forall n | n !in Names(level) :: Get(u.components, n) == Get(w.components, n))
    decreases |level|
  {
    hide Get, Gone, StateOf, SweepOne, UniqueNames;
    if level != [] {
      var c, rest := level[0], level[1..];
      assert level == [c] + rest;
      FirstApart(level);
      SweepOneMeans(w, c, cs, seen);
      var u := SweepOne(w, c, StateOf(cs, c, seen));
      if u.ok {
        DoneStaysClean(w, c, StateOf(cs, c, seen));
        SweepMeans(u, rest, cs, seen);
      }
    }
  }

  lemma DoneStaysClean(w: Sweep, c: ComponentSpec, state: Observed)
    requires w.done ==> w.need == []
    ensures SweepOne(w, c, state).done ==> SweepOne(w, c, state).need == []
  {
    hide Exhausts, RecordFailure;
  }

  lemma FirstApart(level: seq<ComponentSpec>)
    requires UniqueNames(level) && level != []
    ensures UniqueNames(level[1..]) && level[0].name in Names(level)
    ensures forall d | d in level[1..] :: d.name != level[0].name
    ensures forall n | n !in Names(level) :: n !in Names(level[1..])
  {
    var rest := level[1..];
    forall n | n in Names(rest) ensures n in Names(level) {
      var i :| 0 <= i < |rest| && rest[i].name == n;
      assert level[i + 1].name == n;
    }
  }

  /** No two levels share a name. */
  ghost predicate Apart(levels: Levels) {
    && (forall l | 0 <= l < |levels| :: UniqueNames(levels[l]))
    && (forall k, l | 0 <= k < l < |levels| :: Names(levels[k]) !! Names(levels[l]))
  }

  lemma ExactLevelsApart(components: seq<ComponentSpec>, levels: Levels)
    requires ExactLevels(components, levels)
    ensures Apart(levels)
  {
    hide Longest, UniqueNames;
    forall k, l | 0 <= k < l < |levels| ensures Names(levels[k]) !! Names(levels[l]) {
      forall n | n in Names(levels[k]) && n in Names(levels[l]) ensures false {
        var i :| 0 <= i < |levels[k]| && levels[k][i].name == n;
        var j :| 0 <= j < |levels[l]| && levels[l][j].name == n;
        assert Longest(components, levels[k][i].name, k) && Longest(components, levels[l][j].name, l);
        LongestIsUnique(components, n, k, l);
      }
    }
  }

  lemma LevelMeans(cs: seq<Entry>, level: seq<ComponentSpec>, seen: Sightings)
    requires UniqueNames(level)
    ensures var w := LevelSweep(cs, level, seen);
      && (w.ok && w.done <==> AllGone(level, cs, seen))
      && (w.ok && w.done ==> w.need == [])
      && (forall c | c in w.need :: c in level)
      && (forall n | n !in Names(level) :: Get(w.components, n) == Get(cs, n))
  {
    hide Get, UniqueNames, AllGone, Names;
    SweepMeans(Sweep(cs, true, [], true), level, cs, seen);
  }

  lemma SameEntriesSameGone(level: seq<ComponentSpec>, cs: seq<Entry>, cs': seq<Entry>, seen: Sightings)
    requires forall n | n in Names(level) :: Get(cs', n) == Get(cs, n)
    ensures AllGone(level, cs', seen) <==> AllGone(level, cs, seen)
  {
    hide Get, Gone;
    forall c | c in level ensures c.name in Names(level) {
      var i :| 0 <= i < |level| && level[i] == c;
    }
  }

  lemma ApartPrefix(levels: Levels)
    requires Apart(levels) && levels != []
    ensures Apart(levels[..|levels| - 1]) && UniqueNames(levels[|levels| - 1])
    ensures forall l | 0 <= l < |levels| - 1 :: Names(levels[l]) !! Names(levels[|levels| - 1])
  {
    hide UniqueNames, Names;
  }

  /** What is submitted comes from one level, and every later level is gone; undeployAll is
      done exactly when every level is. */
  lemma {:induction false} TearDownMeans(cs: seq<Entry>, levels: Levels, seen: Sightings, accepts: string -> bool)
    returns (l: nat)
    requires Apart(levels)
    ensures var t := TearDown(cs, levels, seen, accepts);
      && (t.verdict == Done <==> forall m | 0 <= m < |levels| :: AllGone(levels[m], cs, seen))
      && (t.submitted != [] ==> l < |levels| && forall c | c in t.submitted :: c in levels[l])
      && (forall m | l < m < |levels| :: AllGone(levels[m], cs, seen))
    decreases |levels|
  {
    hide Get, UniqueNames, AllGone, Names, LevelSweep;
    l := 0;
    if levels != [] {
      var last := |levels| - 1;
      var w := LevelSweep(cs, levels[last], seen);
      ApartPrefix(levels);
      LevelMeans(cs, levels[last], seen);
      l := last;
      if w.ok && w.done {
        l := TearDownMeans(w.components, levels[..last], seen, accepts);
        forall m | 0 <= m < last ensures AllGone(levels[m], w.components, seen) <==> AllGone(levels[m], cs, seen) {
          SameEntriesSameGone(levels[m], cs, w.components, seen);
        }
        assert forall m | 0 <= m < last :: levels[..last][m] == levels[m];
      }
    }
  }

  lemma LevelOf(components: seq<ComponentSpec>, levels: Levels, c: ComponentSpec) returns (l: nat)
    requires ExactLevels(components, levels) && c in components
    ensures l < |levels| && c in levels[l] && Longest(components, c.name, l)
  {
    hide Longest, UniqueNames;
    var k, i :| 0 <= k < |levels| && 0 <= i < |levels[k]| && levels[k][i] == c;
    assert Longest(components, levels[k][i].name, k);
    l := k;
  }

  lemma InLevel(components: seq<ComponentSpec>, levels: Levels, l: nat, c: ComponentSpec)
    requires ExactLevels(components, levels) && l < |levels| && c in levels[l]
    ensures c in components && Longest(components, c.name, l)
  {
    hide Longest, UniqueNames;
    var i :| 0 <= i < |levels[l]| && levels[l][i] == c;
    assert levels[l][i] in components && Longest(components, levels[l][i].name, l);
  }

  /** An undeploy is submitted only once every component that needs this one, directly or
      through others, is gone. */
  lemma UndeployFollowsTheOrder(components: seq<ComponentSpec>, levels: Levels, cs: seq<Entry>,
                                seen: Sightings, accepts: string -> bool, c: ComponentSpec, x: ComponentSpec)
    requires ExactLevels(components, levels) && c in TearDown(cs, levels, seen, accepts).submitted
    requires x in components && Needs(components, x.name, c.name)
    ensures Gone(x, Get(cs, x.name), seen(x.name))
  {
    hide Longest, Needs, ExactLevels, Apart, TearDown, Get, Gone;
    ExactLevelsApart(components, levels);
    var l := TearDownMeans(cs, levels, seen, accepts);
    var m := LevelOf(components, levels, x);
    InLevel(components, levels, l, c);
    NeedsDescends(components, x.name, c.name, m, l);
    assert AllGone(levels[m], cs, seen);
  }

  /** undeployAll is done exactly when every component is gone. */
  lemma DoneMeansAllGone(components: seq<ComponentSpec>, levels: Levels, cs: seq<Entry>, seen: Sightings,
        accepts: string -> bool)
    requires ExactLevels(components, levels)
    ensures TearDown(cs, levels, seen, accepts).verdict == Done <==> AllGone(components, cs, seen)
  {
    hide Longest, ExactLevels, Apart, TearDown, Get, Gone;
    ExactLevelsApart(components, levels);
    var _ := TearDownMeans(cs, levels, seen, accepts);
    if forall m | 0 <= m < |levels| :: AllGone(levels[m], cs, seen) {
      forall c | c in components ensures Gone(c, Get(cs, c.name), seen(c.name)) {
        var l := LevelOf(components, levels, c);
        assert AllGone(levels[l], cs, seen);
      }
    }
    if AllGone(components, cs, seen) {
      forall m, c | 0 <= m < |levels| && c in levels[m] ensures c in components { InLevel(components, levels, m, c); }
    }
  }

  /** The undeploy Job of this name just failed for the last time. */
  predicate LastTry(cs: seq<Entry>, seen: Sightings, name: string) {
    seen(name).JobFailed? && Wrap32(Get(cs, name).retries + 1) >= MAX_DEPLOY_RETRIES
  }

  /** While a sweep is done, an entry is as it was observed, or its Job failed for the last time:
      so it makes no difference that a name comes twice. */
  ghost predicate AsObserved(w: Sweep, cs: seq<Entry>, seen: Sightings) {
    forall n :: Get(w.components, n) == Get(cs, n) || LastTry(cs, seen, n)
  }

  lemma SweepOneDone(w: Sweep, c: ComponentSpec, cs: seq<Entry>, seen: Sightings)
    requires w.ok && AsObserved(w, cs, seen)
    ensures var u := SweepOne(w, c, StateOf(cs, c, seen));
      u.ok && u.done ==> w.done && Gone(c, Get(cs, c.name), seen(c.name)) && AsObserved(u, cs, seen)
  {
    hide Get, Wrap32, Forced, RecordFailure;
    var state := StateOf(cs, c, seen);
    if state.JobFailed? { FailureRewrites(w.components, c.name, UNDEPLOY + state.reason); }
    assert Get(w.components, c.name) == Get(cs, c.name) || LastTry(cs, seen, c.name);
  }

  lemma {:induction false} SweepNeverRecovers(w: Sweep, level: seq<ComponentSpec>, cs: seq<Entry>, seen: Sightings)
    requires !w.ok || !w.done
    ensures var u := SweepAll(w, level, cs, seen); !u.ok || !u.done
    decreases |level|
  {
    hide StateOf, Exhausts, RecordFailure;
    if level != [] && w.ok {
      SweepNeverRecovers(SweepOne(w, level[0], StateOf(cs, level[0], seen)), level[1..], cs, seen);
    }
  }

  lemma {:induction false} SweepDoneMeansGone(w: Sweep, level: seq<ComponentSpec>, cs: seq<Entry>, seen: Sightings)
    requires w.ok && AsObserved(w, cs, seen)
    ensures var u := SweepAll(w, level, cs, seen); u.ok && u.done ==> AllGone(level, cs, seen)
    decreases |level|
  {
    hide Gone, StateOf, SweepOne, AsObserved, Get;
    if level != [] {
      var u := SweepOne(w, level[0], StateOf(cs, level[0], seen));
      assert level == [level[0]] + level[1..];
      SweepOneDone(w, level[0], cs, seen);
      if u.ok && u.done {
        SweepDoneMeansGone(u, level[1..], cs, seen);
      } else {
        SweepNeverRecovers(u, level[1..], cs, seen);
      }
    }
  }

  /** The fallback for a template without levels: one flat level, in no order, yet done only when
      everything is gone, duplicate names or not; and without duplicates exactly then. */
  lemma FlatDoneMeansAllGone(components: seq<ComponentSpec>, cs: seq<Entry>, seen: Sightings, accepts: string -> bool)
    ensures TearDown(cs, [components], seen, accepts).verdict == Done ==> AllGone(components, cs, seen)
    ensures UniqueNames(components) ==>
              (TearDown(cs, [components], seen, accepts).verdict == Done <==> AllGone(components, cs, seen))
  {
    hide AllGone, UniqueNames, SweepAll;
    var blank := Sweep(cs, true, [], true);
    assert AsObserved(blank, cs, seen);
    SweepDoneMeansGone(blank, components, cs, seen);
    assert [components][0] == components;
    if UniqueNames(components) { var _ := TearDownMeans(cs, [components], seen, accepts); }
  }
}
