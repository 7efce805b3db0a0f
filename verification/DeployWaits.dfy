/** How long the environment waits for its next pass over a level. */
module DeployWaits {
  import opened Wrappers
  import opened Template
  import opened DependencyGraph
  import opened ComponentStatus
  import E = Environment
  import opened Backoff
  import opened Deploy
  import opened DeployMoves
  import opened DeployLoops
  import opened DeployOutcomes
  import opened LevelOutcomes
  import opened EnvironmentPhase

  // ---- the largest count, by name -------------------------------------------------------------------

  ghost predicate LargestOf(k: nat, cs: seq<Entry>, need: seq<ComponentSpec>) {
    && (forall c | c in need :: Get(cs, c.name).retries <= k)
    && (k > 0 ==> exists c | c in need :: Get(cs, c.name).retries == k)
  }

  lemma LargestIs(cs: seq<Entry>, need: seq<ComponentSpec>)
    requires UniqueEntries(cs)
    ensures LargestOf(LargestRetries(cs, need), cs, need)
  {
    hide LargestRetries, UniqueEntries;
    var k := LargestRetries(cs, need);
    LargestRetriesIsLargest(cs, need);
    forall c | c in need ensures Get(cs, c.name).retries <= k {
      var i :| 0 <= i < |need| && need[i] == c;
      if Has(cs, c.name) {
        var e := cs[Find(cs, c.name)];
        assert e in cs && Listed(need, e.name);
      }
    }
    if k > 0 {
      var e :| e in cs && Listed(need, e.name) && e.retries == k;
      var i :| 0 <= i < |need| && need[i].name == e.name;
      var j :| 0 <= j < |cs| && cs[j] == e;
      UniqueFind(cs, j);
      GetAt(cs, j);
      assert need[i] in need;
    }
  }

  // ---- who was struck --------------------------------------------------------------------------------

  /** A failure went on record. */
  predicate Raised(cs: seq<Entry>, cs': seq<Entry>, n: string) {
    Get(cs', n).retries > Get(cs, n).retries
  }

  lemma MoveRaises(w: Work, e: Entry, c: ComponentSpec, a: Answer, timeout: Limit)
    requires Sound(e) && Fits(w, e, c, a) && w != Nothing
    ensures Move(w, e, c, a, timeout).retries > e.retries <==> Blames(w, e, c, a, timeout)
    ensures w == Adoption ==> Move(w, e, c, a, timeout).retries <= e.retries
    ensures Fails(w, e, c, a, timeout) <==> FailsNow(e, Move(w, e, c, a, timeout))
  {
    OutcomesOfMove(w, e, c, a, timeout);
    MoveFailsNow(w, e, c, a, timeout);
    hide Move, Overdue, FailsNow;
  }

  ghost predicate RaisedAmong(cs: seq<Entry>, cs': seq<Entry>, need: seq<ComponentSpec>) {
    exists c | c in need :: Raised(cs, cs', c.name)
  }

  /** A loop that goes through while nobody gives up asks for a retry exactly when it put a failure
      on record. */
  lemma RetryingIsRaised(k: nat, w: Work, s: E.Status, need: seq<ComponentSpec>, reply: Replies, timeout: Limit)
    requires w in {Submission, Observation, Check} && (w == Check || timeout == NO_LIMIT)
    requires UniqueNames(need) && AllSound(s.components) && AllFit(w, s.components, need, reply)
    requires var u := Steps(w, Blank(s), need, reply, timeout);
      && ReachesTo(k, w, s.components, u, need, reply, timeout)
      && u.over.None? && !NewlyFailed(s.components, u.status.components)
    ensures var u := Steps(w, Blank(s), need, reply, timeout);
      && (u.retrying <==> RaisedAmong(s.components, u.status.components, need))
      && (u.running <==> exists c | c in need :: LingersAt(w, s.components, c, reply, timeout))
  {
    hide Steps, Get, UniqueNames, AllSound, Move, Fits, Blames, Fails, ReachesTo, Sound, FailsNow, Lingers, StopsAt;
    var u := Steps(w, Blank(s), need, reply, timeout);
    ReachedIsMoved(k, w, s.components, u, need, reply, timeout);
    LoopFlags(w, Blank(s), need, reply, timeout);
    forall c | c in need
      ensures RetriesAt(w, s.components, c, reply, timeout) <==> Raised(s.components, u.status.components, c.name)
    {
      GetIsSound(s.components, c.name);
      MoveRaises(w, Get(s.components, c.name), c, reply(c.name), timeout);
      assert MovesAt(w, s.components, u.status.components, c, reply, timeout);
      assert !FailsNow(Get(s.components, c.name), Get(u.status.components, c.name));
    }
  }

  /** A loop that somebody stopped while nobody gave up was stopped by an error. */
  lemma StoppedByError(k: nat, w: Work, cs: seq<Entry>, u: Tally, need: seq<ComponentSpec>, reply: Replies,
        timeout: Limit)
    requires w != Nothing && AllSound(cs) && AllFit(w, cs, need, reply)
    requires ReachesTo(k, w, cs, u, need, reply, timeout) && u.over.Some? && !NewlyFailed(cs, u.status.components)
    ensures u.over == Some(Errored)
    ensures exists c | c in need ::
              StopsAt(w, cs, c, reply, timeout) && !Fails(w, Get(cs, c.name), c, reply(c.name), timeout)
  {
    hide Get, AllSound, Move, Fits, Stops, Fails, Sound, FailsNow, ReachesTo, MovedUpTo;
    ReachedStops(k, w, cs, u, need, reply, timeout);
    var c := need[k - 1];
    GetIsSound(cs, c.name);
    MoveRaises(w, Get(cs, c.name), c, reply(c.name), timeout);
    ReachedMoves(k, w, cs, u, need, reply, timeout, k - 1);
    assert !FailsNow(Get(cs, c.name), Get(u.status.components, c.name));
  }

  lemma ReachedMoves(k: nat, w: Work, cs: seq<Entry>, u: Tally, need: seq<ComponentSpec>, reply: Replies,
        timeout: Limit, i: nat)
    requires ReachesTo(k, w, cs, u, need, reply, timeout) && i < k
    ensures MovesAt(w, cs, u.status.components, need[i], reply, timeout)
  {
    hide Get, Move, Stops, Fails;
  }

  // ---- the three passes -------------------------------------------------------------------------------

  lemma AdoptedIsNotRaised(cs: seq<Entry>, mid: seq<Entry>, cs': seq<Entry>, need: seq<ComponentSpec>, reply: Replies)
    requires AllSound(cs) && UniqueNames(need) && AllFit(Adoption, cs, need, reply)
    requires Moved(Adoption, cs, mid, need, reply, NO_LIMIT) && Disjointly(cs, mid, cs')
    ensures forall n :: Raised(mid, cs', n) <==> Raised(cs, cs', n)
  {
    hide Get, Move, Fits, Blames, Fails, Sound, FailsNow, UniqueNames, UniqueEntries, AllSound, Has;
    forall n ensures Get(mid, n).retries <= Get(cs, n).retries {
      assert Touched(Adoption, Get(cs, n), Get(mid, n), need, n, reply, NO_LIMIT);
      GetIsSound(cs, n);
      if Get(mid, n) != Get(cs, n) {
        var c :| c in need && c.name == n && Get(mid, n) == Move(Adoption, Get(cs, n), c, reply(n), NO_LIMIT);
        MoveRaises(Adoption, Get(cs, n), c, reply(n), NO_LIMIT);
      }
    }
  }

  lemma {:induction false} OnlyQuitFails(t: Tally, need: seq<ComponentSpec>, reply: Replies)
    ensures var u := Steps(Submission, t, need, reply, NO_LIMIT); u.over.None? ==> u.status.phase == t.status.phase
    decreases |need|
  {
    hide SetPhase, Struck, Exhausts;
    if need != [] && t.over.None? {
      OnlyQuitFails(Step(Submission, t, need[0], reply(need[0].name), NO_LIMIT), need[1..], reply);
    }
  }

  /** Ten seconds, or the backoff of the worst when somebody was struck. */
  predicate Backs(o: Option<Outcome>, k: nat, struck: bool, other: int) {
    o == Some(Returned(After(if struck then Intended(k) else other)))
  }

  lemma SubmitWaits(s: E.Status, need: seq<ComponentSpec>, reply: Replies) returns (k: nat)
    requires AllSound(s.components) && UniqueNames(need) && AllFit(Adoption, s.components, need, reply)
    requires s.phase != E.EnvPhase.Failed
    ensures var e := SubmitPass(s, need, reply);
      var cs, cs' := s.components, e.status.components;
      && LargestOf(k, cs', need)
      && (if NewlyFailed(cs, cs') then e.result == Some(Returned(Never))
          else Backs(e.result, k, RaisedAmong(cs, cs', need), REQUEUE_AFTER))
      && forall n | n !in Names(need) :: !Raised(cs, cs', n)
  {
    hide Steps, SubmitPass, Get, UniqueNames, AllSound, AllFit, ReachesTo, SubmittedUpTo, NewlyFailed, Moved;
    hide Disjointly, LargestOf, Raised, Intended, LargestRetries;
    var mid, t, j := SubmitReaches(s, need, reply);
    var cs, cs' := s.components, t.status.components;
    k := LargestRetries(cs', need);
    SubmitProgress(s, need, reply, NO_LIMIT);
    LargestIs(cs', need) by { ProgressEntries(s, SubmitPass(s, need, reply).status, reply, NO_LIMIT); }
    AdoptionOnlyAdopts(Blank(s), need, reply);
    StepsEnd(Adoption, Blank(s), need, reply, NO_LIMIT);
    StepsEnd(Submission, Blank(mid), need, reply, NO_LIMIT);
    OnlyQuitFails(Blank(mid), need, reply);
    SubmittedDisjointly(cs, mid.components, cs', need, reply);
    FailedTwice(cs, mid.components, cs');
    SubmittedOver(j, mid.components, t, need, reply);
    QuitMeansFailed(Blank(mid), need, reply);
    if !NewlyFailed(cs, cs') {
      RetryingIsRaised(j, Submission, mid, need, reply, NO_LIMIT);
      AdoptedIsNotRaised(cs, mid.components, cs', need, reply);
      assert RaisedAmong(mid.components, cs', need) <==> RaisedAmong(cs, cs', need);
    }
    forall n | n !in Names(need) ensures !Raised(cs, cs', n) { SameNotRaised(cs, cs', n); }
  }

  lemma SameNotRaised(cs: seq<Entry>, cs': seq<Entry>, n: string)
    requires Get(cs', n) == Get(cs, n)
    ensures !Raised(cs, cs', n)
  {
  }

  lemma ProgressEntries(s: E.Status, s': E.Status, reply: Replies, timeout: Limit)
    requires Progress(s, s', reply, timeout)
    ensures UniqueEntries(s'.components)
  {
  }

  lemma SubmittedOver(k: nat, cs: seq<Entry>, u: Tally, need: seq<ComponentSpec>, reply: Replies)
    requires ReachesTo(k, Submission, cs, u, need, reply, NO_LIMIT)
    ensures u.over in {None, Some(Returned(Never))}
  {
    hide Get, Move;
  }

  lemma ObserveWaits(s: E.Status, need: seq<ComponentSpec>, reply: Replies) returns (k: nat)
    requires AllSound(s.components) && UniqueNames(need) && AllFit(Observation, s.components, need, reply)
    ensures var e := ObservePass(s, need, reply);
      var cs, cs' := s.components, e.status.components;
      && LargestOf(k, cs', need)
      && (!NewlyFailed(cs, cs') ==>
            if exists c | c in need :: reply(c.name).observed.ObserveError? then e.result == Some(Errored)
            else if AllSucceeded(need, reply) then e.result == None && !RaisedAmong(cs, cs', need)
            else Backs(e.result, k, RaisedAmong(cs, cs', need), REQUEUE_AFTER))
  {
    hide Steps, Get, UniqueNames, AllSound, AllFit, ReachesTo, MovedUpTo, NewlyFailed, Moved;
    hide LargestOf, Raised, Intended, LargestRetries, Stops, Lingers, Retries;
    var t, j := WatchReaches(Observation, s, need, reply, NO_LIMIT);
    var cs, cs' := s.components, t.status.components;
    k := LargestRetries(cs', need);
    LargestIs(cs', need) by { SoundEntries(cs'); }
    ObserveEnds(s, need, reply);
    if !NewlyFailed(cs, cs') {
      forall c | c in need ensures
        && (reply(c.name).observed.ObserveError? <==>
              StopsAt(Observation, cs, c, reply, NO_LIMIT)
              && !Fails(Observation, Get(cs, c.name), c, reply(c.name), NO_LIMIT))
      {
        ErrorStops(Get(cs, c.name), c, reply(c.name));
      }
      if t.over.Some? {
        StoppedByError(j, Observation, cs, t, need, reply, NO_LIMIT);
      } else {
        ReachedIsMoved(j, Observation, cs, t, need, reply, NO_LIMIT);
        RetryingIsRaised(j, Observation, s, need, reply, NO_LIMIT);
      }
    }
  }

  lemma ErrorStops(e: Entry, c: ComponentSpec, a: Answer)
    ensures a.observed.ObserveError? <==>
              Stops(Observation, e, c, a, NO_LIMIT) && !Fails(Observation, e, c, a, NO_LIMIT)
  {
  }

  lemma CheckWaits(s: E.Status, need: seq<ComponentSpec>, reply: Replies, timeout: Limit) returns (k: nat)
    requires AllSound(s.components) && UniqueNames(need) && AllFit(Check, s.components, need, reply)
    ensures var e := CheckPass(s, need, reply, timeout);
      var cs, cs' := s.components, e.status.components;
      && LargestOf(k, cs', need)
      && (!NewlyFailed(cs, cs') ==>
            if exists c | c in need :: Unchecked(cs, c, reply, timeout) then e.result == Some(Errored)
            else
              Backs(e.result, k, RaisedAmong(cs, cs', need),
                    if exists c | c in need :: reply(c.name).checked.NotYet? then REQUEUE_AFTER else SECOND))
  {
    hide Steps, Get, UniqueNames, AllSound, AllFit, ReachesTo, MovedUpTo, NewlyFailed, Moved;
    hide LargestOf, Raised, Intended, LargestRetries, Stops, Lingers, Retries, Blames, Unchecked;
    var t, j := WatchReaches(Check, s, need, reply, timeout);
    var cs, cs' := s.components, t.status.components;
    k := LargestRetries(cs', need);
    LargestIs(cs', need) by { SoundEntries(cs'); }
    if !NewlyFailed(cs, cs') {
      forall c | c in need ensures
        && (Unchecked(cs, c, reply, timeout) <==>
              StopsAt(Check, cs, c, reply, timeout)
              && !Fails(Check, Get(cs, c.name), c, reply(c.name), timeout))
        && (LingersAt(Check, cs, c, reply, timeout) ==> reply(c.name).checked.NotYet?)
      {
        CheckErrorStops(cs, c, reply, timeout);
      }
      if t.over.Some? {
        StoppedByError(j, Check, cs, t, need, reply, timeout);
      } else {
        ReachedIsMoved(j, Check, cs, t, need, reply, timeout);
        RetryingIsRaised(j, Check, s, need, reply, timeout);
        forall c | c in need && reply(c.name).checked.NotYet?
          ensures LingersAt(Check, cs, c, reply, timeout) || Raised(cs, cs', c.name)
        {
          NotYetOrLate(j, cs, t, need, c, reply, timeout);
        }
      }
    }
  }

  /** The probe fails of a component that is not overdue. */
  predicate Unchecked(cs: seq<Entry>, c: ComponentSpec, reply: Replies, timeout: Limit) {
    reply(c.name).checked.CheckError? && !Overdue(Get(cs, c.name), reply(c.name).now, timeout)
  }

  lemma CheckErrorStops(cs: seq<Entry>, c: ComponentSpec, reply: Replies, timeout: Limit)
    ensures var e, a := Get(cs, c.name), reply(c.name);
      && (Unchecked(cs, c, reply, timeout) <==> Stops(Check, e, c, a, timeout) && !Fails(Check, e, c, a, timeout))
      && (Lingers(Check, e, c, a, timeout) ==> a.checked.NotYet?)
  {
    hide Get, Overdue;
  }

  lemma NotYetOrLate(j: nat, cs: seq<Entry>, t: Tally, need: seq<ComponentSpec>, c: ComponentSpec, reply: Replies,
        timeout: Limit)
    requires AllSound(cs) && AllFit(Check, cs, need, reply) && c in need
    requires MovesAt(Check, cs, t.status.components, c, reply, timeout) && reply(c.name).checked.NotYet?
    ensures LingersAt(Check, cs, c, reply, timeout) || Raised(cs, t.status.components, c.name)
  {
    hide Get, AllSound, Move, Fits, Overdue, Sound;
    GetIsSound(cs, c.name);
    MoveRaises(Check, Get(cs, c.name), c, reply(c.name), timeout);
  }

  // ---- a level ------------------------------------------------------------------------------------------

  ghost predicate Raises(cs: seq<Entry>, cs': seq<Entry>) {
    exists n: string :: Raised(cs, cs', n)
  }

  /** A call that the pass needs comes to an error: a fetch, or the look at a Job, or a probe. */
  ghost predicate Unanswered(cs: seq<Entry>, level: seq<ComponentSpec>, fetched: bool, reply: Replies,
          timeout: Limit) {
    var phases := PhaseByName(cs);
    var need, watched, checked :=
        Select(level, phases, Submission), Select(level, phases, Observation), Select(level, phases, Check);
    || ((need != [] || watched != []) && !fetched)
    || (need == [] && exists c | c in watched :: reply(c.name).observed.ObserveError?)
    || (need == [] && AllSucceeded(watched, reply) && exists c | c in checked :: Unchecked(cs, c, reply, timeout))
  }

  /** Somebody waits to be submitted, or for a Job, or for its readiness. */
  ghost predicate LeftToDo(cs: seq<Entry>, level: seq<ComponentSpec>, reply: Replies) {
    var phases := PhaseByName(cs);
    || Select(level, phases, Submission) != []
    || !AllSucceeded(Select(level, phases, Observation), reply)
    || exists c | c in Select(level, phases, Check) :: reply(c.name).checked.NotYet?
  }

  /** The wait after a pass in which nobody gave up: the backoff of the worst of those who were in for
      the same work when somebody was struck, otherwise ten seconds or one. */
  ghost predicate WaitsDue(w: Work, k: nat, cs: seq<Entry>, cs': seq<Entry>, r: Option<Outcome>,
          level: seq<ComponentSpec>, fetched: bool, reply: Replies, timeout: Limit) {
    if Unanswered(cs, level, fetched, reply, timeout) then r == Some(Errored)
    else
      var worked := Select(level, PhaseByName(cs), w);
      && Backs(r, k, Raises(cs, cs'), if LeftToDo(cs, level, reply) then REQUEUE_AFTER else SECOND)
      && LargestOf(k, cs', worked)
      && forall n :: Raised(cs, cs', n) ==> n in Names(worked)
  }

  lemma AmongIsAll(cs: seq<Entry>, cs': seq<Entry>, need: seq<ComponentSpec>)
    requires forall n | n !in Names(need) :: !Raised(cs, cs', n)
    ensures RaisedAmong(cs, cs', need) <==> Raises(cs, cs')
  {
    hide Raised;
    if Raises(cs, cs') {
      var n :| Raised(cs, cs', n);
      var i :| 0 <= i < |need| && need[i].name == n;
      assert need[i] in need;
    }
  }

  lemma SubmitWaitsDue(s: E.Status, level: seq<ComponentSpec>, reply: Replies, timeout: Limit) returns (k: nat)
    requires AllSound(s.components) && UniqueNames(level) && s.phase != E.EnvPhase.Failed
    requires Select(level, PhaseByName(s.components), Submission) != []
    ensures var cs, e := s.components, LevelPass(s, level, PhaseByName(s.components), true, reply, timeout);
      !NewlyFailed(cs, e.status.components) ==>
        WaitsDue(Submission, k, cs, e.status.components, e.result, level, true, reply, timeout)
    ensures var cs, e := s.components, LevelPass(s, level, PhaseByName(s.components), true, reply, timeout);
      NewlyFailed(cs, e.status.components) ==> e.result == Some(Returned(Never))
  {
    hide Get, Select, PhaseByName, UniqueNames, AllFit, SubmitPass, AllSound, NewlyFailed, LargestOf, Raised;
    hide Intended, UniqueEntries;
    var cs := s.components;
    var need := Select(level, PhaseByName(cs), Submission);
    SoundEntries(cs);
    SelectUnique(level, PhaseByName(cs), Submission);
    SelectedFit(cs, level, Submission, reply);
    k := SubmitWaits(s, need, reply);
    AmongIsAll(cs, SubmitPass(s, need, reply).status.components, need);
  }

  lemma WatchWaitsDue(s: E.Status, level: seq<ComponentSpec>, fetched: bool, reply: Replies, timeout: Limit)
    returns (w: Work, k: nat)
    requires AllSound(s.components) && UniqueNames(level)
    requires Select(level, PhaseByName(s.components), Submission) == []
    requires Select(level, PhaseByName(s.components), Observation) != [] ==> fetched
    ensures var cs, e := s.components, LevelPass(s, level, PhaseByName(s.components), fetched, reply, timeout);
      !NewlyFailed(cs, e.status.components) ==>
        w in {Observation, Check}
        && WaitsDue(w, k, cs, e.status.components, e.result, level, fetched, reply, timeout)
  {
    hide Get, Select, PhaseByName, UniqueNames, AllFit, ReachesTo, MovedUpTo, AllSound, Moved, Steps, Retry;
    hide LargestOf, Raised, Intended, NewlyFailed, Unchecked, UniqueEntries, CheckPass, Disjointly;
    var cs, phases := s.components, PhaseByName(s.components);
    var watched, checked := Select(level, phases, Observation), Select(level, phases, Check);
    SoundEntries(cs);
    SelectUnique(level, phases, Observation);
    SelectUnique(level, phases, Check);
    SelectedFit(cs, level, Observation, reply);
    var t, _ := WatchReaches(Observation, s, watched, reply, NO_LIMIT);
    var mid := t.status;
    WatchedStillDue(cs, mid.components, level, reply);
    var u, _ := WatchReaches(Check, mid, checked, reply, timeout);
    var k0 := ObserveWaits(s, watched, reply);
    var k1 := CheckWaits(mid, checked, reply, timeout);
    ObserveEnds(s, watched, reply);
    ObserveNobody(s, reply);
    if AllSucceeded(watched, reply) {
      w, k := Check, k1;
      WatchedDisjointly(cs, mid.components, u.status.components, level, reply, timeout);
      FailedTwice(cs, mid.components, u.status.components);
      ChecksRaise(cs, mid.components, u.status.components, watched, checked, reply, timeout);
      CheckStatus(mid, checked, reply, timeout);
    } else {
      w, k := Observation, k0;
      forall n | n !in Names(watched) ensures !Raised(cs, mid.components, n) { SameNotRaised(cs, mid.components, n); }
      AmongIsAll(cs, mid.components, watched);
    }
  }

  lemma CheckStatus(s: E.Status, need: seq<ComponentSpec>, reply: Replies, timeout: Limit)
    ensures CheckPass(s, need, reply, timeout).status == Steps(Check, Blank(s), need, reply, timeout).status
  {
    hide Steps;
  }

  /** After Jobs that all succeeded, only a check can put a failure on record. */
  lemma ChecksRaise(cs: seq<Entry>, mid: seq<Entry>, cs': seq<Entry>, watched: seq<ComponentSpec>,
        checked: seq<ComponentSpec>, reply: Replies, timeout: Limit)
    requires forall n | n !in Names(watched) :: Get(mid, n) == Get(cs, n)
    requires forall n | n !in Names(checked) :: Get(cs', n) == Get(mid, n)
    requires forall c | c in checked :: KeepsAt(cs, mid, c)
    requires !NewlyFailed(cs, mid) ==> !RaisedAmong(cs, mid, watched)
    ensures forall c | c in checked :: Unchecked(mid, c, reply, timeout) <==> Unchecked(cs, c, reply, timeout)
    ensures !NewlyFailed(cs, mid) ==>
              && (RaisedAmong(mid, cs', checked) <==> Raises(cs, cs'))
              && forall n :: Raised(cs, cs', n) ==> n in Names(checked)
  {
    hide Get, Overdue, NewlyFailed;
    assert forall c | c in checked :: Raised(mid, cs', c.name) <==> Raised(cs, cs', c.name);
    if !NewlyFailed(cs, mid) {
      forall n | n !in Names(checked) ensures !Raised(cs, cs', n) {
        if n in Names(watched) {
          var i :| 0 <= i < |watched| && watched[i].name == n;
          assert watched[i] in watched;
          assert !Raised(cs, mid, watched[i].name);
        }
      }
      AmongIsAll(cs, cs', checked);
    }
  }

  /** The wait after a pass over a level in which nobody gave up. */
  lemma LevelWaits(s: E.Status, level: seq<ComponentSpec>, fetched: bool, reply: Replies, timeout: Limit)
    returns (w: Work, k: nat)
    requires AllSound(s.components) && UniqueNames(level) && s.phase != E.EnvPhase.Failed
    ensures w in {Submission, Observation, Check}
    ensures var cs, e := s.components, LevelPass(s, level, PhaseByName(s.components), fetched, reply, timeout);
      !NewlyFailed(cs, e.status.components) ==>
        WaitsDue(w, k, cs, e.status.components, e.result, level, fetched, reply, timeout)
  {
    hide Get, Select, PhaseByName, UniqueNames, AllSound, SubmitPass, ObservePass, CheckPass, NewlyFailed, Backs;
    hide LargestOf, Raises, Raised, LeftToDo, AllSucceeded;
    w, k := Submission, 0;
    var need := Select(level, PhaseByName(s.components), Submission);
    var watched := Select(level, PhaseByName(s.components), Observation);
    if (need == [] && watched == []) || fetched {
      hide WaitsDue, LevelPass;
      if need != [] {
        k := SubmitWaitsDue(s, level, reply, timeout);
      } else {
        var v, k0 := WatchWaitsDue(s, level, fetched, reply, timeout);
        w, k := if v in {Observation, Check} then v else w, k0;
      }
    }
  }
}
