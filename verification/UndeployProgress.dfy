/** What a pass of undeployAll submits and records, and that a teardown comes to its end. */
module UndeployProgress {
  import opened Wrappers
  import opened Template
  import opened DependencyGraph
  import opened Kahn
  import opened ComponentStatus
  import opened Deploy
  import opened DeployMoves
  import opened Undeploy

  // ---- one component -------------------------------------------------------------------------------

  /** Its Job is looked at: it is not shared and not given up. */
  predicate Watched(c: ComponentSpec, e: Entry) {
    !IsShared(c) && !Forced(e)
  }

  /** It is to be submitted: its Job is not there, or failed with a retry left. */
  predicate Asks(c: ComponentSpec, e: Entry, o: Observed) {
    Watched(c, e) && (o.JobPending? || (o.JobFailed? && Wrap32(e.retries + 1) < MAX_DEPLOY_RETRIES))
  }

  predicate Unseen(c: ComponentSpec, e: Entry, o: Observed) {
    Watched(c, e) && o.ObserveError?
  }

  /** What the look at it leaves on record. */
  function Noted(c: ComponentSpec, e: Entry, o: Observed): Entry {
    if Watched(c, e) && o.JobFailed? then
      e.(retries := Wrap32(e.retries + 1), phase := Pending, since := None, reason := UNDEPLOY + o.reason)
    else e
  }

  lemma FourCases(c: ComponentSpec, e: Entry, o: Observed)
    ensures Gone(c, e, o) || Asks(c, e, o) || Unseen(c, e, o) || (Watched(c, e) && o.JobRunning?)
    ensures Gone(c, e, o) ==> !Asks(c, e, o) && !Unseen(c, e, o) && !(Watched(c, e) && o.JobRunning?)
  {
  }

  lemma SweepOneNotes(w: Sweep, c: ComponentSpec, cs: seq<Entry>, seen: Sightings)
    requires w.ok && Get(w.components, c.name) == Get(cs, c.name)
    ensures var e, o, u := Get(cs, c.name), seen(c.name), SweepOne(w, c, StateOf(cs, c, seen));
      && (u.ok <==> !Unseen(c, e, o))
      && u.need == (if Asks(c, e, o) then w.need + [c] else w.need)
      && Get(u.components, c.name) == Noted(c, e, o)
      && (forall n | n != c.name :: Get(u.components, n) == Get(w.components, n))
  {
    var e, o, state := Get(cs, c.name), seen(c.name), StateOf(cs, c, seen);
    hide Get, Wrap32, Forced, RecordFailure;
    if state.JobFailed? {
      FailureNotes(w.components, c.name, UNDEPLOY + state.reason);
    }
  }

  lemma FailureNotes(cs: seq<Entry>, name: string, reason: string)
    ensures var e, after := Get(cs, name), RecordFailure(cs, name, reason);
      && Get(after, name) == e.(retries := Wrap32(e.retries + 1), phase := Pending, since := None, reason := reason)
      && forall n | n != name :: Get(after, n) == Get(cs, n)
  {
    hide Get, Wrap32;
    RecordRewrites(cs, name, reason);
  }

  // ---- one level -------------------------------------------------------------------------------------

  predicate AsksAt(cs: seq<Entry>, c: ComponentSpec, seen: Sightings) {
    Asks(c, Get(cs, c.name), seen(c.name))
  }

  predicate UnseenAt(cs: seq<Entry>, c: ComponentSpec, seen: Sightings) {
    Unseen(c, Get(cs, c.name), seen(c.name))
  }

  predicate NotedAt(cs: seq<Entry>, cs': seq<Entry>, c: ComponentSpec, seen: Sightings) {
    Get(cs', c.name) == Noted(c, Get(cs, c.name), seen(c.name))
  }

  /** From w on, the sweep of a level found this. */
  ghost predicate Swept(w: Sweep, u: Sweep, level: seq<ComponentSpec>, cs: seq<Entry>, seen: Sightings) {
    && (u.ok <==> forall c | c in level :: !UnseenAt(cs, c, seen))
    && (u.ok ==> forall c :: c in u.need <==> c in w.need || (c in level && AsksAt(cs, c, seen)))
    && (u.ok ==> forall c | c in level :: NotedAt(cs, u.components, c, seen))
    && (forall n | n !in Names(level) :: Get(u.components, n) == Get(w.components, n))
  }

  lemma {:induction false} SweepNotes(w: Sweep, level: seq<ComponentSpec>, cs: seq<Entry>, seen: Sightings)
    requires UniqueNames(level) && w.ok && forall c | c in level :: Get(w.components, c.name) == Get(cs, c.name)
    ensures Swept(w, SweepAll(w, level, cs, seen), level, cs, seen)
    decreases |level|
  {
    hide Get, SweepOne, StateOf, Asks, Unseen, Noted, UniqueNames, Swept, Names;
    if level == [] {
      NothingSwept(w, cs, seen);
    } else {
      var c, rest := level[0], level[1..];
      var u := SweepOne(w, c, StateOf(cs, c, seen));
      FirstApart(level);
      assert level == [c] + rest;
      SweepOneNotes(w, c, cs, seen);
      if u.ok {
        SweepNotes(u, rest, cs, seen);
        SweptFirst(w, u, SweepAll(u, rest, cs, seen), level, cs, seen);
      } else {
        assert SweepAll(u, rest, cs, seen) == u;
        SweptBroken(w, u, level, cs, seen);
      }
    }
  }

  lemma NothingSwept(w: Sweep, cs: seq<Entry>, seen: Sightings)
    requires w.ok
    ensures Swept(w, w, [], cs, seen)
  {
  }

  lemma SweptBroken(w: Sweep, u: Sweep, level: seq<ComponentSpec>, cs: seq<Entry>, seen: Sightings)
    requires level != [] && !u.ok && UnseenAt(cs, level[0], seen) && level[0].name in Names(level)
    requires forall n | n != level[0].name :: Get(u.components, n) == Get(w.components, n)
    ensures Swept(w, u, level, cs, seen)
  {
    hide Get, Unseen, Names;
    assert level[0] in level;
  }

  lemma SweptFirst(w: Sweep, u: Sweep, v: Sweep, level: seq<ComponentSpec>, cs: seq<Entry>, seen: Sightings)
    requires UniqueNames(level) && level != [] && Swept(u, v, level[1..], cs, seen)
    requires !UnseenAt(cs, level[0], seen) && NotedAt(cs, u.components, level[0], seen)
    requires u.need == if AsksAt(cs, level[0], seen) then w.need + [level[0]] else w.need
    requires forall n | n != level[0].name :: Get(u.components, n) == Get(w.components, n)
    ensures Swept(w, v, level, cs, seen)
  {
    hide Get, Asks, Unseen, Noted, UniqueNames, Names;
    var c, rest := level[0], level[1..];
    assert level == [c] + rest;
    FirstApart(level);
    NameOfFirst(level);
  }

  lemma NameOfFirst(level: seq<ComponentSpec>)
    requires UniqueNames(level) && level != []
    ensures level[0].name !in Names(level[1..])
  {
  }

  /** The level is swept as every component of it asks. */
  lemma LevelNotes(cs: seq<Entry>, level: seq<ComponentSpec>, seen: Sightings)
    requires UniqueNames(level)
    ensures var w := LevelSweep(cs, level, seen);
      && (w.ok <==> forall c | c in level :: !UnseenAt(cs, c, seen))
      && (w.ok ==> forall c :: c in w.need <==> c in level && AsksAt(cs, c, seen))
      && (w.ok ==> forall c | c in level :: NotedAt(cs, w.components, c, seen))
      && (forall n | n !in Names(level) :: Get(w.components, n) == Get(cs, n))
  {
    hide Get, Asks, Unseen, Noted, UniqueNames, SweepAll, Names;
    SweepNotes(Sweep(cs, true, [], true), level, cs, seen);
  }

  // ---- one pass -----------------------------------------------------------------------------------------

  /** The last level that is not gone, or none: the one a pass comes to. */
  ghost predicate ComesTo(l: nat, levels: Levels, cs: seq<Entry>, seen: Sightings) {
    && l < |levels| && !AllGone(levels[l], cs, seen)
    && forall m | l < m < |levels| :: AllGone(levels[m], cs, seen)
  }

  ghost predicate Blind(level: seq<ComponentSpec>, cs: seq<Entry>, seen: Sightings) {
    exists c | c in level :: UnseenAt(cs, c, seen)
  }

  /** What a pass that comes to level l does: it submits all who ask, unless a look at one of the level
      fails; it records the failures of this and the later levels; and it waits, unless a look or a
      submit failed. */
  ghost predicate Does(l: nat, t: Teardown, levels: Levels, cs: seq<Entry>, seen: Sightings, accepts: string -> bool)
    requires l < |levels|
  {
    var level := levels[l];
    && (Blind(level, cs, seen) ==> t.submitted == [] && t.verdict == Broken)
    && (!Blind(level, cs, seen) ==>
          && (forall c :: c in t.submitted <==> c in level && AsksAt(cs, c, seen))
          && t.verdict == (if exists c | c in t.submitted :: !accepts(c.name) then Broken else Waiting)
          && forall c | c in level :: NotedAt(cs, t.components, c, seen))
    && (forall m, c | l < m < |levels| && c in levels[m] :: NotedAt(cs, t.components, c, seen))
    && (forall m, c | 0 <= m < l && c in levels[m] :: Get(t.components, c.name) == Get(cs, c.name))
  }

  lemma StopsHere(cs: seq<Entry>, levels: Levels, seen: Sightings, accepts: string -> bool)
    requires Apart(levels) && levels != [] && !AllGone(levels[|levels| - 1], cs, seen)
    ensures Does(|levels| - 1, TearDown(cs, levels, seen, accepts), levels, cs, seen, accepts)
  {
    hide Get, AllGone, Names, LevelSweep, Asks, Unseen, Noted, UniqueNames;
    var last := |levels| - 1;
    ApartPrefix(levels);
    LevelNotes(cs, levels[last], seen);
    LevelMeans(cs, levels[last], seen);
    forall m, c | 0 <= m < last && c in levels[m] ensures c.name !in Names(levels[last]) {
      NamedByNobody(levels[m], c.name);
    }
  }

  /** Over a level that is gone the pass goes on to the one before. */
  lemma GoesOn(cs: seq<Entry>, levels: Levels, seen: Sightings, accepts: string -> bool, l: nat)
    requires Apart(levels) && l < |levels| - 1 && AllGone(levels[|levels| - 1], cs, seen)
    requires var w := LevelSweep(cs, levels[|levels| - 1], seen);
      var before := levels[..|levels| - 1];
      Does(l, TearDown(w.components, before, seen, accepts), before, w.components, seen, accepts)
    ensures Does(l, TearDown(cs, levels, seen, accepts), levels, cs, seen, accepts)
  {
    hide Get, AllGone, Names, LevelSweep, Asks, Unseen, Noted, UniqueNames;
    var last := |levels| - 1;
    var w, before := LevelSweep(cs, levels[last], seen), levels[..last];
    var t := TearDown(w.components, before, seen, accepts);
    ApartPrefix(levels);
    LevelNotes(cs, levels[last], seen);
    LevelMeans(cs, levels[last], seen);
    assert TearDown(cs, levels, seen, accepts) == t;
    forall m, c | 0 <= m < last && c in levels[m] ensures Get(w.components, c.name) == Get(cs, c.name) {
      NamedByNobody(levels[m], c.name);
    }
    assert forall m | 0 <= m < last :: before[m] == levels[m];
    forall c | c in levels[last] ensures Get(t.components, c.name) == Get(w.components, c.name) {
      NamedByNobody(levels[last], c.name);
      TearDownTouches(w.components, before, seen, accepts, c.name);
    }
    assert before[l] == levels[l];
    forall c | c in levels[l]
      ensures UnseenAt(w.components, c, seen) <==> UnseenAt(cs, c, seen)
      ensures AsksAt(w.components, c, seen) <==> AsksAt(cs, c, seen)
    {
    }
    forall m, c | l < m < |levels| && c in levels[m] ensures NotedAt(cs, t.components, c, seen) {
      if m < last {
        assert before[m] == levels[m] && NotedAt(w.components, t.components, c, seen);
      } else {
        assert NotedAt(cs, w.components, c, seen);
      }
    }
    forall m, c | 0 <= m < l && c in levels[m] ensures Get(t.components, c.name) == Get(cs, c.name) {
      assert before[m] == levels[m];
    }
  }

  /** A pass leaves the entries of names that are in no level. */
  lemma {:induction false} TearDownTouches(cs: seq<Entry>, levels: Levels, seen: Sightings, accepts: string -> bool,
        n: string)
    requires Apart(levels) && forall l | 0 <= l < |levels| :: n !in Names(levels[l])
    ensures Get(TearDown(cs, levels, seen, accepts).components, n) == Get(cs, n)
    decreases |levels|
  {
    hide Get, Names, LevelSweep, UniqueNames;
    if levels != [] {
      var last := |levels| - 1;
      ApartPrefix(levels);
      LevelMeans(cs, levels[last], seen);
      TearDownTouches(LevelSweep(cs, levels[last], seen).components, levels[..last], seen, accepts, n);
    }
  }

  /** Whatever the answers, a pass comes to the last level that is not gone, and does there what its
      components ask for. */
  lemma {:induction false} PassDoes(cs: seq<Entry>, levels: Levels, seen: Sightings, accepts: string -> bool, l: nat)
    requires Apart(levels) && ComesTo(l, levels, cs, seen)
    ensures Does(l, TearDown(cs, levels, seen, accepts), levels, cs, seen, accepts)
    decreases |levels|
  {
    hide Get, AllGone, Names, LevelSweep, UniqueNames, Does, TearDown;
    var last := |levels| - 1;
    if l == last {
      StopsHere(cs, levels, seen, accepts);
    } else {
      var w, before := LevelSweep(cs, levels[last], seen), levels[..last];
      ApartPrefix(levels);
      LevelMeans(cs, levels[last], seen);
      forall m | 0 <= m < last ensures AllGone(levels[m], w.components, seen) <==> AllGone(levels[m], cs, seen) {
        SameEntriesSameGone(levels[m], cs, w.components, seen);
      }
      assert forall m | 0 <= m < last :: before[m] == levels[m];
      PassDoes(w.components, before, seen, accepts, l);
      GoesOn(cs, levels, seen, accepts, l);
    }
  }

  /** And when everything is gone, it only takes note. */
  lemma {:induction false} DoneNotes(cs: seq<Entry>, levels: Levels, seen: Sightings, accepts: string -> bool)
    requires Apart(levels) && forall m | 0 <= m < |levels| :: AllGone(levels[m], cs, seen)
    ensures var t := TearDown(cs, levels, seen, accepts);
      && t.verdict == Done && t.submitted == []
      && forall m, c | 0 <= m < |levels| && c in levels[m] :: NotedAt(cs, t.components, c, seen)
    decreases |levels|
  {
    hide Get, AllGone, Names, LevelSweep, UniqueNames, Asks, Unseen, Noted;
    if levels != [] {
      var last := |levels| - 1;
      var w, before := LevelSweep(cs, levels[last], seen), levels[..last];
      var t := TearDown(w.components, before, seen, accepts);
      ApartPrefix(levels);
      LevelMeans(cs, levels[last], seen);
      LevelNotes(cs, levels[last], seen);
      forall m | 0 <= m < last ensures AllGone(before[m], w.components, seen) {
        SameEntriesSameGone(levels[m], cs, w.components, seen);
      }
      DoneNotes(w.components, before, seen, accepts);
      forall m, c | 0 <= m < |levels| && c in levels[m] ensures NotedAt(cs, t.components, c, seen) {
        NamedByNobody(levels[m], c.name);
        if m < last {
          assert before[m] == levels[m] && NotedAt(w.components, t.components, c, seen);
        } else {
          TearDownTouches(w.components, before, seen, accepts, c.name);
          assert NotedAt(cs, w.components, c, seen);
        }
      }
    }
  }

  lemma {:induction false} LastNotGone(levels: Levels, cs: seq<Entry>, seen: Sightings) returns (l: nat)
    ensures ComesTo(l, levels, cs, seen) || forall m | 0 <= m < |levels| :: AllGone(levels[m], cs, seen)
    decreases |levels|
  {
    hide AllGone;
    l := 0;
    if levels != [] {
      var last := |levels| - 1;
      if !AllGone(levels[last], cs, seen) {
        l := last;
      } else {
        l := LastNotGone(levels[..last], cs, seen);
        assert forall m | 0 <= m < last :: levels[..last][m] == levels[m];
      }
    }
  }

  // ---- by the template -------------------------------------------------------------------------------

  /** Its chain of dependencies is longer. */
  ghost predicate Deeper(components: seq<ComponentSpec>, x: ComponentSpec, c: ComponentSpec) {
    exists m: nat, n: nat :: Longest(components, x.name, m) && Longest(components, c.name, n) && n < m
  }

  /** Everything that may need the component is gone. */
  ghost predicate Free(components: seq<ComponentSpec>, c: ComponentSpec, cs: seq<Entry>, seen: Sightings) {
    forall x | x in components && Deeper(components, x, c) :: Gone(x, Get(cs, x.name), seen(x.name))
  }

  /** When no look fails: a component is submitted exactly when it asks for it and every component with
      a longer chain is gone. */
  lemma SubmittedExactlyWhen(components: seq<ComponentSpec>, levels: Levels, cs: seq<Entry>, seen: Sightings,
        accepts: string -> bool, c: ComponentSpec)
    requires ExactLevels(components, levels) && forall x | x in components :: !UnseenAt(cs, x, seen)
    ensures c in TearDown(cs, levels, seen, accepts).submitted <==>
            c in components && AsksAt(cs, c, seen) && Free(components, c, cs, seen)
  {
    hide Longest, ExactLevels, TearDown, Get, Gone, AllGone, Asks, Unseen, Noted, Apart;
    ExactLevelsApart(components, levels);
    var l := LastNotGone(levels, cs, seen);
    if ComesTo(l, levels, cs, seen) {
      PassDoes(cs, levels, seen, accepts, l);
      LevelIsSeen(components, levels, l, cs, seen);
      if c in components && AsksAt(cs, c, seen) {
        var k := LevelOf(components, levels, c);
        AskIsNotGone(c, Get(cs, c.name), seen(c.name));
        FreeIsReached(components, levels, cs, seen, c, k, l);
      }
      if c in levels[l] {
        InLevel(components, levels, l, c);
        LevelIsFree(components, levels, cs, seen, c, l);
      }
    } else {
      DoneNotes(cs, levels, seen, accepts);
      if c in components && AsksAt(cs, c, seen) {
        var k := LevelOf(components, levels, c);
        AskIsNotGone(c, Get(cs, c.name), seen(c.name));
        GoneAt(levels[k], cs, seen, c);
        assert false;
      }
    }
  }

  lemma AskIsNotGone(c: ComponentSpec, e: Entry, o: Observed)
    requires Asks(c, e, o)
    ensures !Gone(c, e, o)
  {
  }

  lemma GoneAt(level: seq<ComponentSpec>, cs: seq<Entry>, seen: Sightings, c: ComponentSpec)
    requires AllGone(level, cs, seen) && c in level
    ensures Gone(c, Get(cs, c.name), seen(c.name))
  {
  }

  lemma LevelIsSeen(components: seq<ComponentSpec>, levels: Levels, l: nat, cs: seq<Entry>, seen: Sightings)
    requires ExactLevels(components, levels) && l < |levels| && forall x | x in components :: !UnseenAt(cs, x, seen)
    ensures !Blind(levels[l], cs, seen)
  {
    hide Longest, ExactLevels, Get, Unseen;
    forall c | c in levels[l] ensures !UnseenAt(cs, c, seen) { InLevel(components, levels, l, c); }
  }

  lemma LevelIsFree(components: seq<ComponentSpec>, levels: Levels, cs: seq<Entry>, seen: Sightings,
        c: ComponentSpec, l: nat)
    requires ExactLevels(components, levels) && ComesTo(l, levels, cs, seen) && c in levels[l]
    ensures Free(components, c, cs, seen)
  {
    hide Longest, ExactLevels, Get, Gone, AllGone;
    InLevel(components, levels, l, c);
    forall x | x in components && Deeper(components, x, c) ensures Gone(x, Get(cs, x.name), seen(x.name)) {
      var m: nat, n: nat :| Longest(components, x.name, m) && Longest(components, c.name, n) && n < m;
      var k := LevelOf(components, levels, x);
      LongestIsUnique(components, x.name, k, m);
      LongestIsUnique(components, c.name, l, n);
      GoneAt(levels[k], cs, seen, x);
    }
  }

  /** Whoever is free and not gone is in the level that the pass comes to. */
  lemma FreeIsReached(components: seq<ComponentSpec>, levels: Levels, cs: seq<Entry>, seen: Sightings,
        c: ComponentSpec, k: nat, l: nat)
    requires ExactLevels(components, levels) && ComesTo(l, levels, cs, seen) && k < |levels| && c in levels[k]
    requires !Gone(c, Get(cs, c.name), seen(c.name)) && Longest(components, c.name, k)
    ensures Free(components, c, cs, seen) ==> k == l
  {
    hide Longest, ExactLevels, Get, Gone;
    if k > l {
      GoneAt(levels[k], cs, seen, c);
      assert false;
    } else if k < l {
      var x :| x in levels[l] && !Gone(x, Get(cs, x.name), seen(x.name));
      InLevel(components, levels, l, x);
      assert Deeper(components, x, c);
    }
  }

  /** A pass that waits has submitted something, or there is a Job at work, of a component that is free. */
  lemma WaitingHasWork(components: seq<ComponentSpec>, levels: Levels, cs: seq<Entry>, seen: Sightings,
        accepts: string -> bool) returns (c: ComponentSpec)
    requires ExactLevels(components, levels) && TearDown(cs, levels, seen, accepts).verdict == Waiting
    ensures c in components && Free(components, c, cs, seen)
    ensures || (c in TearDown(cs, levels, seen, accepts).submitted && accepts(c.name))
            || (Watched(c, Get(cs, c.name)) && seen(c.name).JobRunning?)
  {
    hide Longest, ExactLevels, TearDown, Get, Gone, Asks, Unseen, Noted, Apart, Watched;
    ExactLevelsApart(components, levels);
    var l := LastNotGone(levels, cs, seen);
    if ComesTo(l, levels, cs, seen) {
      PassDoes(cs, levels, seen, accepts, l);
      var x :| x in levels[l] && !Gone(x, Get(cs, x.name), seen(x.name));
      FourCases(x, Get(cs, x.name), seen(x.name));
      InLevel(components, levels, l, x);
      LevelIsFree(components, levels, cs, seen, x, l);
      c := x;
    } else {
      DoneNotes(cs, levels, seen, accepts);
    }
  }

  // ---- a teardown comes to its end -------------------------------------------------------------------

  predicate Yes(name: string) {
    true
  }

  /** No look fails, and no Job runs any more. */
  ghost predicate Calm(seen: Sightings) {
    forall n :: !seen(n).ObserveError? && !seen(n).JobRunning?
  }

  /** Between two passes: what is uninstalled stays so, and the Jobs submitted have ended, well or not. */
  ghost predicate Follows(t: Teardown, seen: Sightings, seen': Sightings) {
    && (forall n :: seen(n).JobSucceeded? ==> seen'(n).JobSucceeded?)
    && (forall c | c in t.submitted :: seen'(c.name).JobSucceeded? || seen'(c.name).JobFailed?)
  }

  /** A run of passes, each from what the last has left on record, whose Jobs all end. */
  ghost predicate JobsEnd(cs: seq<Entry>, levels: Levels, run: seq<Sightings>)
    decreases |run|
  {
    run == []
    || (var t := TearDown(cs, levels, run[0], Yes);
        && Calm(run[0])
        && (|run| > 1 ==> Follows(t, run[0], run[1]))
        && JobsEnd(t.components, levels, run[1..]))
  }

  ghost predicate Finishes(cs: seq<Entry>, levels: Levels, run: seq<Sightings>)
    decreases |run|
  {
    && run != []
    && (TearDown(cs, levels, run[0], Yes).verdict == Done
        || Finishes(TearDown(cs, levels, run[0], Yes).components, levels, run[1..]))
  }

  /** The count of a component that is not given up leaves room for a failure. */
  predicate Kept(e: Entry) {
    0 <= e.retries <= MAX_DEPLOY_RETRIES + 1 && (e.retries > MAX_DEPLOY_RETRIES ==> Forced(e))
  }

  ghost predicate AllKept(cs: seq<Entry>) {
    forall n :: Kept(Get(cs, n))
  }

  lemma NotedIsKept(c: ComponentSpec, e: Entry, o: Observed)
    requires Kept(e)
    ensures Kept(Noted(c, e, o))
  {
  }

  lemma GoneStays(c: ComponentSpec, e: Entry, o: Observed, o': Observed)
    requires Kept(e) && Gone(c, e, o) && (o.JobSucceeded? ==> o'.JobSucceeded?)
    ensures Gone(c, Noted(c, e, o), o')
  {
  }

  /** The pass that finds them failed is the j-th that comes to this level, counting from zero. */
  ghost predicate Aged(j: nat, level: seq<ComponentSpec>, cs: seq<Entry>, seen: Sightings) {
    j > 0 ==>
      forall c | c in level && !Gone(c, Get(cs, c.name), seen(c.name)) ::
        Get(cs, c.name).retries >= j - 1 && seen(c.name).JobFailed?
  }

  lemma AskedAges(j: nat, c: ComponentSpec, e: Entry, o: Observed, o': Observed)
    requires Kept(e) && !Gone(c, e, o) && !o.ObserveError? && !o.JobRunning?
    requires j > 0 ==> e.retries >= j - 1 && o.JobFailed?
    ensures Asks(c, e, o) && Noted(c, e, o).retries >= j
  {
  }

  lemma PassAges(j: nat, l: nat, cs: seq<Entry>, levels: Levels, seen: Sightings, seen': Sightings)
    requires Apart(levels) && AllKept(cs) && Calm(seen) && ComesTo(l, levels, cs, seen)
    requires Follows(TearDown(cs, levels, seen, Yes), seen, seen') && Aged(j, levels[l], cs, seen)
    ensures var cs' := TearDown(cs, levels, seen, Yes).components;
      Aged(j + 1, levels[l], cs', seen') && forall m | l < m < |levels| :: AllGone(levels[m], cs', seen')
  {
    hide Get, TearDown, Asks, Unseen, Noted, Gone, Forced, Apart, Kept;
    var t := TearDown(cs, levels, seen, Yes);
    PassDoes(cs, levels, seen, Yes, l);
    forall c | c in levels[l] ensures !UnseenAt(cs, c, seen) { CalmIsSeen(c, Get(cs, c.name), seen(c.name)); }
    forall m, c | l < m < |levels| && c in levels[m]
      ensures Gone(c, Get(t.components, c.name), seen'(c.name))
    {
      assert AllGone(levels[m], cs, seen) && NotedAt(cs, t.components, c, seen);
      GoneStays(c, Get(cs, c.name), seen(c.name), seen'(c.name));
    }
    forall c | c in levels[l] && !Gone(c, Get(t.components, c.name), seen'(c.name))
      ensures Get(t.components, c.name).retries >= j && seen'(c.name).JobFailed?
    {
      var e, o := Get(cs, c.name), seen(c.name);
      assert NotedAt(cs, t.components, c, seen);
      if Gone(c, e, o) {
        GoneStays(c, e, o, seen'(c.name));
        assert false;
      }
      AskedAges(j, c, e, o, seen'(c.name));
      assert AsksAt(cs, c, seen) && c in t.submitted;
      SucceededIsGone(c, Get(t.components, c.name), seen'(c.name));
    }
  }

  lemma CalmIsSeen(c: ComponentSpec, e: Entry, o: Observed)
    requires !o.ObserveError?
    ensures !Unseen(c, e, o)
  {
  }

  lemma SucceededIsGone(c: ComponentSpec, e: Entry, o: Observed)
    ensures o.JobSucceeded? ==> Gone(c, e, o)
  {
  }

  /** No component is found failed a sixth time. */
  lemma SixthIsGone(level: seq<ComponentSpec>, cs: seq<Entry>, seen: Sightings)
    requires AllKept(cs) && Aged(MAX_DEPLOY_RETRIES, level, cs, seen)
    ensures AllGone(level, cs, seen)
  {
    hide Get;
    forall c | c in level ensures Gone(c, Get(cs, c.name), seen(c.name)) {
      assert Kept(Get(cs, c.name));
    }
  }

  lemma PassKeepsCounts(cs: seq<Entry>, levels: Levels, seen: Sightings, l: nat)
    requires Apart(levels) && AllKept(cs) && Calm(seen) && ComesTo(l, levels, cs, seen)
    ensures AllKept(TearDown(cs, levels, seen, Yes).components)
  {
    hide Get, TearDown, Asks, Unseen, Noted, Gone, Kept, Apart, Names;
    var t := TearDown(cs, levels, seen, Yes);
    PassDoes(cs, levels, seen, Yes, l);
    forall c | c in levels[l] ensures !UnseenAt(cs, c, seen) { CalmIsSeen(c, Get(cs, c.name), seen(c.name)); }
    forall n ensures Kept(Get(t.components, n)) {
      if m, c :| 0 <= m < |levels| && c in levels[m] && c.name == n {
        NotedIsKept(c, Get(cs, n), seen(n));
        assert m >= l ==> NotedAt(cs, t.components, c, seen);
      } else {
        forall m | 0 <= m < |levels| ensures n !in Names(levels[m]) { NamedByNobody(levels[m], n); }
        TearDownTouches(cs, levels, seen, Yes, n);
      }
    }
  }

  /** Where the pass comes to, seen from a level that is known to be reached. */
  lemma NotAbove(l: nat, top: nat, levels: Levels, cs: seq<Entry>, seen: Sightings)
    requires ComesTo(l, levels, cs, seen) && forall m | top <= m < |levels| :: AllGone(levels[m], cs, seen)
    ensures l < top
  {
    hide AllGone;
  }

  lemma {:induction false} RunEnds(cs: seq<Entry>, levels: Levels, run: seq<Sightings>, top: nat, j: nat)
    requires Apart(levels) && AllKept(cs) && JobsEnd(cs, levels, run)
    requires top <= |levels| && j <= MAX_DEPLOY_RETRIES && |run| > MAX_DEPLOY_RETRIES * top - j >= 0
    requires forall m | top <= m < |levels| :: AllGone(levels[m], cs, run[0])
    requires top > 0 ==> Aged(j, levels[top - 1], cs, run[0])
    ensures Finishes(cs, levels, run)
    decreases |run|
  {
    hide Get, TearDown, Apart, AllGone, AllKept, Calm, Follows, Aged;
    var l := LastNotGone(levels, cs, run[0]);
    if ComesTo(l, levels, cs, run[0]) {
      var cs' := TearDown(cs, levels, run[0], Yes).components;
      NotAbove(l, top, levels, cs, run[0]);
      var i := if l == top - 1 then j else 0;
      if i == MAX_DEPLOY_RETRIES {
        SixthIsGone(levels[l], cs, run[0]);
        assert false;
      } else {
        FirstIsAged(levels[l], cs, run[0]);
        PassAges(i, l, cs, levels, run[0], run[1]);
        PassKeepsCounts(cs, levels, run[0], l);
        RunEnds(cs', levels, run[1..], l + 1, i + 1);
      }
    } else {
      DoneNotes(cs, levels, run[0], Yes);
    }
  }

  lemma FirstIsAged(level: seq<ComponentSpec>, cs: seq<Entry>, seen: Sightings)
    ensures Aged(0, level, cs, seen)
  {
  }

  /** A teardown comes to its end whatever its Jobs come to: when the looks and the submits are answered and
      every Job that was submitted has ended by the next pass, then five passes a level and one more do. */
  lemma TeardownEnds(components: seq<ComponentSpec>, levels: Levels, cs: seq<Entry>, run: seq<Sightings>)
    requires ExactLevels(components, levels) && (forall n :: 0 <= Get(cs, n).retries <= MAX_DEPLOY_RETRIES)
    requires JobsEnd(cs, levels, run) && |run| > MAX_DEPLOY_RETRIES * |levels|
    ensures Finishes(cs, levels, run)
  {
    hide ExactLevels, JobsEnd, Finishes, Apart, Get, AllGone;
    ExactLevelsApart(components, levels);
    if levels != [] { FirstIsAged(levels[|levels| - 1], cs, run[0]); }
    RunEnds(cs, levels, run, |levels|, 0);
  }

  // ---- nobody is skipped -------------------------------------------------------------------------------

  lemma {:induction false} SweepChangesFailed(w: Sweep, level: seq<ComponentSpec>, cs: seq<Entry>, seen: Sightings,
        n: string)
    requires !seen(n).JobFailed?
    ensures Get(SweepAll(w, level, cs, seen).components, n) == Get(w.components, n)
    decreases |level|
  {
    hide Get, Forced, RecordFailure, Exhausts;
    if level != [] && w.ok {
      var state := StateOf(cs, level[0], seen);
      if state.JobFailed? { FailureNotes(w.components, level[0].name, UNDEPLOY + state.reason); }
      SweepChangesFailed(SweepOne(w, level[0], state), level[1..], cs, seen, n);
    }
  }

  /** A pass leaves an entry alone unless it sees the uninstall of this name failed. */
  lemma {:induction false} PassChangesFailed(cs: seq<Entry>, levels: Levels, seen: Sightings,
        accepts: string -> bool, n: string)
    requires !seen(n).JobFailed?
    ensures Get(TearDown(cs, levels, seen, accepts).components, n) == Get(cs, n)
    decreases |levels|
  {
    hide Get, SweepAll;
    if levels != [] {
      var last := levels[|levels| - 1];
      SweepChangesFailed(Sweep(cs, true, [], true), last, cs, seen, n);
      PassChangesFailed(LevelSweep(cs, last, seen).components, levels[..|levels| - 1], seen, accepts, n);
    }
  }

  /** The last of these passes, each from what the one before has left on record, is done. */
  predicate EndsDone(cs: seq<Entry>, levels: Levels, run: seq<Sightings>, accepts: string -> bool)
    decreases |run|
  {
    && run != []
    && (if |run| == 1 then TearDown(cs, levels, run[0], accepts).verdict == Done
        else EndsDone(TearDown(cs, levels, run[0], accepts).components, levels, run[1..], accepts))
  }

  ghost predicate SeenEnded(run: seq<Sightings>, n: string) {
    exists i | 0 <= i < |run| :: run[i](n).JobSucceeded? || run[i](n).JobFailed?
  }

  /** A teardown that is done has skipped nobody, whatever its answers were: of every component that is not
      shared, unless an uninstall of it was on record as failed before, an uninstall was seen ended. */
  lemma {:induction false} NobodyIsSkipped(components: seq<ComponentSpec>, levels: Levels, cs: seq<Entry>,
        run: seq<Sightings>, accepts: string -> bool, c: ComponentSpec)
    requires ExactLevels(components, levels) && EndsDone(cs, levels, run, accepts)
    requires c in components && !IsShared(c) && !(UNDEPLOY <= Get(cs, c.name).reason)
    ensures SeenEnded(run, c.name)
    decreases |run|
  {
    hide ExactLevels, TearDown, Get;
    if run[0](c.name).JobFailed? {
      assert SeenEnded(run, c.name);
    } else if |run| == 1 {
      DoneMeansAllGone(components, levels, cs, run[0], accepts);
      GoneAt(components, cs, run[0], c);
    } else {
      PassChangesFailed(cs, levels, run[0], accepts, c.name);
      NobodyIsSkipped(components, levels, TearDown(cs, levels, run[0], accepts).components, run[1..], accepts, c);
      var i :| 0 <= i < |run[1..]| && (run[1..][i](c.name).JobSucceeded? || run[1..][i](c.name).JobFailed?);
      assert run[i + 1] == run[1..][i];
    }
  }
}
