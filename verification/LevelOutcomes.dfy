/** What a pass over a level comes to: whom it moves and how, and how long it then waits. */
module LevelOutcomes {
  import opened Wrappers
  import opened Template
  import opened DependencyGraph
  import opened ComponentStatus
  import E = Environment
  import opened Backoff
  import opened Deploy
  import opened DeployMoves
  import opened DeployLoops
  import opened DeployOutcomes

  // ---- the flags of a loop ------------------------------------------------------------------------

  /** A failure on record that leaves a retry; of a provision Job, any failure. */
  predicate Retries(w: Work, e: Entry, c: ComponentSpec, a: Answer, timeout: Limit) {
    Blames(w, e, c, a, timeout) && (!Fails(w, e, c, a, timeout) || (w == Observation && IsShared(c)))
  }

  /** There is something to wait for. */
  predicate Lingers(w: Work, e: Entry, c: ComponentSpec, a: Answer, timeout: Limit) {
    match w
    case Nothing => false
    case Adoption => false
    case Submission => a.submitted.NotReadyYet?
    case Observation => a.observed.JobPending? || a.observed.JobRunning? || (a.observed.JobFailed? && IsShared(c))
    case Check => a.checked.NotYet? && !Overdue(e, a.now, timeout)
  }

  predicate Flags(w: Work, t: Tally, c: ComponentSpec, a: Answer, timeout: Limit) {
    var e, u := Get(t.status.components, c.name), Step(w, t, c, a, timeout);
    && (u.retrying <==> t.retrying || Retries(w, e, c, a, timeout))
    && (u.running <==> t.running || Lingers(w, e, c, a, timeout))
  }

  lemma SubmissionFlags(t: Tally, c: ComponentSpec, a: Answer)
    requires Sound(Get(t.status.components, c.name))
    ensures Flags(Submission, t, c, a, NO_LIMIT)
  {
    hide Get, AfterSubmit;
    assert Wrap32(Get(t.status.components, c.name).retries + 1) == Get(t.status.components, c.name).retries + 1;
    SubmitFlags(t, c, a.submitted);
  }

  lemma SubmitFlags(t: Tally, c: ComponentSpec, o: Submitted)
    ensures var u := AfterSubmit(t, c, o);
      var struck := o.Refused? || (o.AtCapacity? && !IsShared(c));
      && (u.retrying <==> t.retrying || (struck && !Exhausts(t.status.components, c.name)))
      && (u.running <==> t.running || o.NotReadyYet?)
  {
    hide Get, Struck, SetPhase, Exhausts;
  }

  lemma OwnFlags(t: Tally, c: ComponentSpec, a: Answer)
    requires Sound(Get(t.status.components, c.name)) && !IsShared(c)
    ensures Flags(Observation, t, c, a, NO_LIMIT)
  {
    assert Wrap32(Get(t.status.components, c.name).retries + 1) == Get(t.status.components, c.name).retries + 1;
    hide Get, Wrap32, Struck, SetPhase, SetSince, AfterObserveShared;
  }

  lemma SharedFlags(t: Tally, c: ComponentSpec, a: Answer)
    requires Sound(Get(t.status.components, c.name)) && t.over.None? && IsShared(c)
    requires Fits(Observation, Get(t.status.components, c.name), c, a)
    ensures Flags(Observation, t, c, a, NO_LIMIT)
  {
    hide Get, Watched, Move, Fails;
    var e, u := Get(t.status.components, c.name), Step(Observation, t, c, a, NO_LIMIT);
    WatchedKeepsFlags(t, c, a.observed);
    StepIsMove(Observation, t, c, a, NO_LIMIT);
    WatchedRetries(e, c, a);
  }

  lemma WatchedKeepsFlags(t: Tally, c: ComponentSpec, o: Observed)
    ensures var u := Watched(t, c, o);
      && u.retrying == t.retrying && (u.over.Some? <==> t.over.Some? || o.ObserveError?)
      && (u.running <==> t.running || o.JobPending? || o.JobRunning? || o.JobFailed?)
  {
    hide Get, Struck, SetPhase, ResetFailure, Exhausts;
  }

  lemma WatchedRetries(e: Entry, c: ComponentSpec, a: Answer)
    requires Sound(e) && IsShared(c)
    ensures Move(Observation, e, c, a, NO_LIMIT).retries > e.retries <==> a.observed.JobFailed?
  {
    assert Wrap32(e.retries + 1) == e.retries + 1;
    hide Wrap32;
  }

  lemma CheckFlags(t: Tally, c: ComponentSpec, a: Answer, timeout: Limit)
    requires Sound(Get(t.status.components, c.name))
    ensures Flags(Check, t, c, a, timeout)
  {
    assert Wrap32(Get(t.status.components, c.name).retries + 1) == Get(t.status.components, c.name).retries + 1;
    hide Get, Wrap32, Struck, SetPhase, ResetFailure, Overdue;
  }

  lemma StepFlags(w: Work, t: Tally, c: ComponentSpec, a: Answer, timeout: Limit)
    requires w in {Submission, Observation, Check} && (w == Check || timeout == NO_LIMIT) && t.over.None?
    requires Sound(Get(t.status.components, c.name)) && Fits(w, Get(t.status.components, c.name), c, a)
    ensures Flags(w, t, c, a, timeout)
  {
    hide Get, Sound, Fits, Flags;
    match w {
      case Submission => SubmissionFlags(t, c, a);
      case Observation => if IsShared(c) { SharedFlags(t, c, a); } else { OwnFlags(t, c, a); }
      case Check => CheckFlags(t, c, a, timeout);
    }
  }

  predicate RetriesAt(w: Work, cs: seq<Entry>, c: ComponentSpec, reply: Replies, timeout: Limit) {
    Retries(w, Get(cs, c.name), c, reply(c.name), timeout)
  }

  predicate LingersAt(w: Work, cs: seq<Entry>, c: ComponentSpec, reply: Replies, timeout: Limit) {
    Lingers(w, Get(cs, c.name), c, reply(c.name), timeout)
  }

  /** The flags at the end of a loop that nobody stopped. */
  lemma {:induction false} LoopFlags(w: Work, t: Tally, need: seq<ComponentSpec>, reply: Replies, timeout: Limit)
    requires w in {Submission, Observation, Check} && (w == Check || timeout == NO_LIMIT) && t.over.None?
    requires UniqueNames(need) && AllSound(t.status.components) && AllFit(w, t.status.components, need, reply)
    ensures var u := Steps(w, t, need, reply, timeout);
      u.over.None? ==>
        && (u.retrying <==> t.retrying || exists c | c in need :: RetriesAt(w, t.status.components, c, reply, timeout))
        && (u.running <==> t.running || exists c | c in need :: LingersAt(w, t.status.components, c, reply, timeout))
    decreases |need|
  {
    hide Step, Get, Has, Move, Fits, Sound, UniqueEntries, UniqueNames, Rewrites, Retries, Lingers;
    if need != [] {
      var cs := t.status.components;
      var c, rest := need[0], need[1..];
      var u := Step(w, t, c, reply(c.name), timeout);
      assert c in need;
      GetIsSound(cs, c.name);
      StepIsMove(w, t, c, reply(c.name), timeout);
      StepFlags(w, t, c, reply(c.name), timeout);
      StepKeepsSound(w, t, c, reply(c.name), timeout);
      StillFit(w, cs, u.status.components, need, reply, timeout);
      if u.over.None? {
        LoopFlags(w, u, rest, reply, timeout);
        RestIsSame(w, cs, u.status.components, need, reply, timeout);
        assert need == [c] + rest;
      }
    }
  }

  lemma RestIsSame(w: Work, cs: seq<Entry>, mid: seq<Entry>, need: seq<ComponentSpec>, reply: Replies, timeout: Limit)
    requires UniqueNames(need) && need != []
    requires Rewrites(cs, mid, need[0].name, Move(w, Get(cs, need[0].name), need[0], reply(need[0].name), timeout))
    ensures forall c | c in need[1..] ::
              && (RetriesAt(w, mid, c, reply, timeout) <==> RetriesAt(w, cs, c, reply, timeout))
              && (LingersAt(w, mid, c, reply, timeout) <==> LingersAt(w, cs, c, reply, timeout))
  {
    hide Get, Has, Move, Retries, Lingers, UniqueEntries;
    forall c | c in need[1..] ensures Get(mid, c.name) == Get(cs, c.name) {
      var i :| 0 <= i < |need[1..]| && need[1..][i] == c;
      assert need[i + 1] == c;
    }
  }

  // ---- who is in for what ------------------------------------------------------------------------

  /** The phase in which a component is in for the work of a loop. */
  predicate InFor(w: Work, phase: ComponentPhase) {
    match phase
    case Pending => w == Submission
    case Submitting => w == Observation
    case Deploying => w == Check
    case Ready => false
    case Failed => false
  }

  lemma SelectedAre(cs: seq<Entry>, level: seq<ComponentSpec>, w: Work, c: ComponentSpec)
    requires UniqueEntries(cs) && w in {Submission, Observation, Check}
    ensures c in Select(level, PhaseByName(cs), w) <==> c in level && InFor(w, Get(cs, c.name).phase)
  {
    hide PhaseByName, Get, Has, Select, UniqueEntries;
    SelectIsExact(level, PhaseByName(cs), w, c);
    PhaseByNameIsGet(cs, c.name);
    NewIsPending(cs, c.name);
  }

  // ---- whom a level moves --------------------------------------------------------------------------

  /** The first k of `need` move as their answers say and the others stay: all of them move unless
      the last that does stops the loop. */
  ghost predicate MovedUpTo(k: nat, w: Work, cs: seq<Entry>, cs': seq<Entry>, need: seq<ComponentSpec>, reply: Replies,
          timeout: Limit) {
    && k <= |need|
    && (forall i | 0 <= i < k :: MovesAt(w, cs, cs', need[i], reply, timeout))
    && (forall i | k <= i < |need| :: KeepsAt(cs, cs', need[i]))
    && (forall i | 0 <= i < k - 1 :: !StopsAt(w, cs, need[i], reply, timeout))
    && (k < |need| ==> k > 0 && StopsAt(w, cs, need[k - 1], reply, timeout))
  }

  lemma ReachedIsMoved(k: nat, w: Work, cs: seq<Entry>, u: Tally, need: seq<ComponentSpec>, reply: Replies,
        timeout: Limit)
    requires ReachesTo(k, w, cs, u, need, reply, timeout)
    ensures MovedUpTo(k, w, cs, u.status.components, need, reply, timeout)
    ensures u.over.None? ==> forall c | c in need :: !StopsAt(w, cs, c, reply, timeout)
                                                       && MovesAt(w, cs, u.status.components, c, reply, timeout)
  {
    hide Get, Move, Stops, Fails;
    if u.over.None? {
      forall c | c in need
        ensures !StopsAt(w, cs, c, reply, timeout) && MovesAt(w, cs, u.status.components, c, reply, timeout)
      {
        var i :| 0 <= i < |need| && need[i] == c;
        assert MovesAt(w, cs, u.status.components, need[i], reply, timeout);
      }
    }
  }

  /** A component that was submitted, and one that was only adopted. */
  predicate LandsAt(cs: seq<Entry>, cs': seq<Entry>, c: ComponentSpec, reply: Replies) {
    var adopted := Move(Adoption, Get(cs, c.name), c, reply(c.name), NO_LIMIT);
    Get(cs', c.name) == Move(Submission, adopted, c, reply(c.name), NO_LIMIT)
  }

  predicate Full(c: ComponentSpec, reply: Replies) {
    IsShared(c) && reply(c.name).submitted.AtCapacity?
  }

  /** All of `need` are adopted as their answers say; the first k are submitted, and the others are
      not, because the last of these is a shared component at capacity. */
  ghost predicate SubmittedUpTo(k: nat, cs: seq<Entry>, cs': seq<Entry>, need: seq<ComponentSpec>, reply: Replies) {
    && k <= |need|
    && (forall i | 0 <= i < k :: LandsAt(cs, cs', need[i], reply))
    && (forall i | k <= i < |need| :: MovesAt(Adoption, cs, cs', need[i], reply, NO_LIMIT))
    && (forall i | 0 <= i < k - 1 :: !Full(need[i], reply))
    && (k < |need| ==> k > 0 && Full(need[k - 1], reply))
  }

  /** The two loops of submitDeploys, one after the other. */
  lemma SubmitReaches(s: E.Status, need: seq<ComponentSpec>, reply: Replies)
    returns (mid: E.Status, t: Tally, k: nat)
    requires AllSound(s.components) && UniqueNames(need) && AllFit(Adoption, s.components, need, reply)
    ensures mid == Steps(Adoption, Blank(s), need, reply, NO_LIMIT).status && mid.phase == s.phase
    ensures AllSound(mid.components) && AllFit(Submission, mid.components, need, reply)
    ensures Moved(Adoption, s.components, mid.components, need, reply, NO_LIMIT)
    ensures Moved(Submission, mid.components, t.status.components, need, reply, NO_LIMIT)
    ensures t == Steps(Submission, Blank(mid), need, reply, NO_LIMIT)
    ensures SubmitPass(s, need, reply).status.components == t.status.components
    ensures ReachesTo(k, Submission, mid.components, t, need, reply, NO_LIMIT)
    ensures SubmittedUpTo(k, s.components, t.status.components, need, reply)
    ensures forall n :: n !in Names(need) ==> Get(t.status.components, n) == Get(s.components, n)
    ensures SubmitPass(s, need, reply).result ==
            if t.over.Some? then t.over
            else if t.exhausted then Some(Returned(Never))
            else if t.retrying then Retry(t, need)
            else Some(Returned(After(REQUEUE_AFTER)))
  {
    hide Steps, Get, Has, Touched, AllFit, UniqueNames, AllSound, Progress, ReachesTo, MovedUpTo, Moved, SubmittedUpTo;
    hide Retry;
    var adopted := Steps(Adoption, Blank(s), need, reply, NO_LIMIT);
    mid := adopted.status;
    LoopProgress(Adoption, s, need, reply, NO_LIMIT, NO_LIMIT);
    AdoptionOnlyAdopts(Blank(s), need, reply);
    AdoptedThenFits(s.components, mid.components, need, reply);
    ProgressIsSound(s, mid, reply, NO_LIMIT);
    t := Steps(Submission, Blank(mid), need, reply, NO_LIMIT);
    var a := LoopReaches(Adoption, Blank(s), need, reply, NO_LIMIT);
    ReachedIsMoved(a, Adoption, s.components, adopted, need, reply, NO_LIMIT);
    k := LoopReaches(Submission, Blank(mid), need, reply, NO_LIMIT);
    ReachedIsMoved(k, Submission, mid.components, t, need, reply, NO_LIMIT);
    StepsMove(Submission, Blank(mid), need, reply, NO_LIMIT);
    AdoptedThenSubmitted(k, s.components, mid.components, t.status.components, need, reply);
    forall n | n !in Names(need) ensures Get(t.status.components, n) == Get(s.components, n) {
      NamedByNobody(need, n);
      NotInNeed(Adoption, s.components, mid.components, need, reply, NO_LIMIT, n);
      NotInNeed(Submission, mid.components, t.status.components, need, reply, NO_LIMIT, n);
    }
  }

  lemma AdoptedThenSubmitted(k: nat, cs: seq<Entry>, mid: seq<Entry>, cs': seq<Entry>, need: seq<ComponentSpec>,
        reply: Replies)
    requires forall c | c in need :: MovesAt(Adoption, cs, mid, c, reply, NO_LIMIT)
    requires MovedUpTo(k, Submission, mid, cs', need, reply, NO_LIMIT)
    ensures SubmittedUpTo(k, cs, cs', need, reply)
  {
    hide Get, Move, Stops;
    forall i | 0 <= i < |need| ensures MovesAt(Adoption, cs, mid, need[i], reply, NO_LIMIT) {
      assert need[i] in need;
    }
    forall i | 0 <= i < k ensures LandsAt(cs, cs', need[i], reply) {
      assert MovesAt(Submission, mid, cs', need[i], reply, NO_LIMIT);
    }
    forall i | k <= i < |need| ensures MovesAt(Adoption, cs, cs', need[i], reply, NO_LIMIT) {
      assert KeepsAt(mid, cs', need[i]);
    }
    forall i | 0 <= i < k ensures StopsAt(Submission, mid, need[i], reply, NO_LIMIT) <==> Full(need[i], reply) {
      OnlyFullStops(mid, need[i], reply);
    }
  }

  lemma OnlyFullStops(cs: seq<Entry>, c: ComponentSpec, reply: Replies)
    ensures StopsAt(Submission, cs, c, reply, NO_LIMIT) <==> Full(c, reply)
  {
    hide Get;
  }

  /** The loop over running Jobs lets the pass go on exactly when every Job succeeded. */
  lemma ObserveEnds(s: E.Status, need: seq<ComponentSpec>, reply: Replies)
    requires AllSound(s.components) && UniqueNames(need) && AllFit(Observation, s.components, need, reply)
    ensures ObservePass(s, need, reply).result.None? <==> forall c | c in need :: reply(c.name).observed.JobSucceeded?
  {
    hide Steps, Get, AllFit, UniqueNames, AllSound, Retry, Stops, Retries, Lingers, ReachesTo, OverAt;
    var t := Steps(Observation, Blank(s), need, reply, NO_LIMIT);
    var k := LoopReaches(Observation, Blank(s), need, reply, NO_LIMIT);
    LoopFlags(Observation, Blank(s), need, reply, NO_LIMIT);
    forall c | c in need
      ensures reply(c.name).observed.JobSucceeded? <==>
                !StopsAt(Observation, s.components, c, reply, NO_LIMIT)
                && !RetriesAt(Observation, s.components, c, reply, NO_LIMIT)
                && !LingersAt(Observation, s.components, c, reply, NO_LIMIT)
    {
      AnswersSplit(Get(s.components, c.name), c, reply(c.name));
    }
    if t.over.None? {
      ReachedIsMoved(k, Observation, s.components, t, need, reply, NO_LIMIT);
    } else {
      ReachedStops(k, Observation, s.components, t, need, reply, NO_LIMIT);
    }
    assert Retry(t, need).Some? by { RetryIsSome(t, need); }
  }

  lemma AnswersSplit(e: Entry, c: ComponentSpec, a: Answer)
    ensures a.observed.JobSucceeded? <==>
              !Stops(Observation, e, c, a, NO_LIMIT) && !Retries(Observation, e, c, a, NO_LIMIT)
              && !Lingers(Observation, e, c, a, NO_LIMIT)
  {
  }

  lemma RetryIsSome(t: Tally, need: seq<ComponentSpec>)
    ensures Retry(t, need).Some?
  {
  }

  lemma ReachedStops(k: nat, w: Work, cs: seq<Entry>, u: Tally, need: seq<ComponentSpec>, reply: Replies,
        timeout: Limit)
    requires ReachesTo(k, w, cs, u, need, reply, timeout) && u.over.Some?
    ensures 0 < k <= |need| && need[k - 1] in need && StopsAt(w, cs, need[k - 1], reply, timeout)
    ensures u.over == OverAt(w, Get(cs, need[k - 1].name), need[k - 1], reply(need[k - 1].name), timeout)
  {
    hide Get, Move, Stops, Fails;
  }

  /** In for different work, under different names. */
  lemma ApartByWork(level: seq<ComponentSpec>, phases: map<string, ComponentPhase>, w: Work, v: Work)
    requires w != v
    ensures forall c, d | c in Select(level, phases, w) && d in Select(level, phases, v) :: c.name != d.name
  {
    hide Select, WorkOf;
    forall c, d | c in Select(level, phases, w) && d in Select(level, phases, v) ensures c.name != d.name {
      SelectIsExact(level, phases, w, c);
      SelectIsExact(level, phases, v, d);
    }
  }

  ghost predicate AllSucceeded(need: seq<ComponentSpec>, reply: Replies) {
    forall c | c in need :: reply(c.name).observed.JobSucceeded?
  }

  /** From cs to cs' a pass over the level moves who is due. First those who are pending. If there
      are none, those who have a Job; and if all of these Jobs succeeded, those who are deploying. */
  ghost predicate MovesDue(k: nat, j: nat, cs: seq<Entry>, cs': seq<Entry>, level: seq<ComponentSpec>, fetched: bool,
          reply: Replies, timeout: Limit) {
    var phases := PhaseByName(cs);
    var need, watched, checked :=
        Select(level, phases, Submission), Select(level, phases, Observation), Select(level, phases, Check);
    && (forall n :: n !in Names(need) + Names(watched) + Names(checked) ==> Get(cs', n) == Get(cs, n))
    && (if (need != [] || watched != []) && !fetched then cs' == cs
        else if need != [] then
          SubmittedUpTo(k, cs, cs', need, reply) && forall c | c in watched || c in checked :: KeepsAt(cs, cs', c)
        else
          && MovedUpTo(k, Observation, cs, cs', watched, reply, NO_LIMIT)
          && (if AllSucceeded(watched, reply) then MovedUpTo(j, Check, cs, cs', checked, reply, timeout)
              else forall c | c in checked :: KeepsAt(cs, cs', c)))
  }

  lemma SubmitsDue(s: E.Status, level: seq<ComponentSpec>, reply: Replies, timeout: Limit) returns (k: nat)
    requires AllSound(s.components) && UniqueNames(level)
    requires Select(level, PhaseByName(s.components), Submission) != []
    ensures MovesDue(k, 0, s.components,
                     LevelPass(s, level, PhaseByName(s.components), true, reply, timeout).status.components,
                     level, true, reply, timeout)
  {
    hide Get, Select, PhaseByName, UniqueNames, AllFit, SubmitPass, ReachesTo, SubmittedUpTo, Sound;
    hide UniqueEntries;
    var cs, phases := s.components, PhaseByName(s.components);
    var need, watched, checked :=
        Select(level, phases, Submission), Select(level, phases, Observation), Select(level, phases, Check);
    SelectUnique(level, phases, Submission);
    SelectedFit(cs, level, Submission, reply);
    var mid, t, k0 := SubmitReaches(s, need, reply);
    k := k0;
    ApartByWork(level, phases, Observation, Submission);
    ApartByWork(level, phases, Check, Submission);
    forall c | c in watched || c in checked ensures KeepsAt(cs, t.status.components, c) {
      NamedByNobody(need, c.name);
    }
  }

  /** The loops over Jobs and over readiness, each with what it takes from its start. */
  lemma WatchReaches(w: Work, s: E.Status, need: seq<ComponentSpec>, reply: Replies, timeout: Limit)
    returns (t: Tally, k: nat)
    requires w in {Observation, Check}
    requires AllSound(s.components) && UniqueNames(need) && AllFit(w, s.components, need, reply)
    ensures t == Steps(w, Blank(s), need, reply, timeout)
    ensures AllSound(t.status.components) && Moved(w, s.components, t.status.components, need, reply, timeout)
    ensures ReachesTo(k, w, s.components, t, need, reply, timeout)
    ensures MovedUpTo(k, w, s.components, t.status.components, need, reply, timeout)
    ensures forall n :: n !in Names(need) ==> Get(t.status.components, n) == Get(s.components, n)
  {
    hide Steps, Get, AllFit, UniqueNames, AllSound, Progress, ReachesTo, MovedUpTo, Moved;
    t := Steps(w, Blank(s), need, reply, timeout);
    k := LoopReaches(w, Blank(s), need, reply, timeout);
    ReachedIsMoved(k, w, s.components, t, need, reply, timeout);
    WatchProgress(w, s, need, reply, timeout, timeout);
    ProgressIsSound(s, t.status, reply, timeout);
    forall n | n !in Names(need) ensures Get(t.status.components, n) == Get(s.components, n) {
      NamedByNobody(need, n);
      NotInNeed(w, s.components, t.status.components, need, reply, timeout, n);
    }
  }

  lemma WatchedStillDue(cs: seq<Entry>, mid: seq<Entry>, level: seq<ComponentSpec>, reply: Replies)
    requires UniqueEntries(cs)
    requires var phases := PhaseByName(cs);
      forall n :: n !in Names(Select(level, phases, Observation)) ==> Get(mid, n) == Get(cs, n)
    ensures var checked := Select(level, PhaseByName(cs), Check);
      AllFit(Check, mid, checked, reply) && forall c | c in checked :: KeepsAt(cs, mid, c)
  {
    hide Get, Select, PhaseByName, UniqueEntries;
    var phases := PhaseByName(cs);
    SelectedFit(cs, level, Check, reply);
    ApartByWork(level, phases, Check, Observation);
    forall c | c in Select(level, phases, Check)
      ensures Fits(Check, Get(mid, c.name), c, reply(c.name)) && KeepsAt(cs, mid, c)
    {
      NamedByNobody(Select(level, phases, Observation), c.name);
      assert Fits(Check, Get(cs, c.name), c, reply(c.name));
    }
  }

  lemma WatchesDue(s: E.Status, level: seq<ComponentSpec>, fetched: bool, reply: Replies, timeout: Limit)
    returns (k: nat, j: nat)
    requires AllSound(s.components) && UniqueNames(level)
    requires Select(level, PhaseByName(s.components), Submission) == []
    requires Select(level, PhaseByName(s.components), Observation) != [] ==> fetched
    ensures MovesDue(k, j, s.components,
                     LevelPass(s, level, PhaseByName(s.components), fetched, reply, timeout).status.components,
                     level, fetched, reply, timeout)
  {
    hide Get, Select, PhaseByName, UniqueNames, AllFit, ReachesTo, MovedUpTo, AllSound, Moved, Steps, Retry, MovesAt;
    var cs, phases := s.components, PhaseByName(s.components);
    var watched, checked := Select(level, phases, Observation), Select(level, phases, Check);
    SoundEntries(cs);
    SelectUnique(level, phases, Observation);
    SelectUnique(level, phases, Check);
    SelectedFit(cs, level, Observation, reply);
    var t, k0 := WatchReaches(Observation, s, watched, reply, NO_LIMIT);
    k := k0;
    var mid := t.status;
    WatchedStillDue(cs, mid.components, level, reply);
    var u, j0 := WatchReaches(Check, mid, checked, reply, timeout);
    j := j0;
    ObserveEnds(s, watched, reply);
    ObserveNobody(s, reply);
    ApartByWork(level, phases, Observation, Check);
    if AllSucceeded(watched, reply) {
      KeptIsMoved(k, cs, mid.components, u.status.components, watched, checked, reply);
      SameStart(j, cs, mid.components, u.status.components, checked, reply, timeout);
    }
  }

  /** An empty loop. */
  lemma ObserveNobody(s: E.Status, reply: Replies)
    ensures ObservePass(s, [], reply) == End(s, None)
  {
  }

  lemma KeptIsMoved(k: nat, cs: seq<Entry>, mid: seq<Entry>, cs': seq<Entry>, watched: seq<ComponentSpec>,
        checked: seq<ComponentSpec>, reply: Replies)
    requires MovedUpTo(k, Observation, cs, mid, watched, reply, NO_LIMIT)
    requires forall n :: n !in Names(checked) ==> Get(cs', n) == Get(mid, n)
    requires forall c, d | c in watched && d in checked :: c.name != d.name
    ensures MovedUpTo(k, Observation, cs, cs', watched, reply, NO_LIMIT)
  {
    hide Get, Move, Stops;
    forall i | 0 <= i < |watched| ensures Get(cs', watched[i].name) == Get(mid, watched[i].name) {
      assert watched[i] in watched;
      NamedByNobody(checked, watched[i].name);
    }
    forall i | 0 <= i < k ensures MovesAt(Observation, cs, cs', watched[i], reply, NO_LIMIT) {
      assert MovesAt(Observation, cs, mid, watched[i], reply, NO_LIMIT);
    }
    forall i | k <= i < |watched| ensures KeepsAt(cs, cs', watched[i]) { assert KeepsAt(cs, mid, watched[i]); }
  }

  lemma SameStart(j: nat, cs: seq<Entry>, mid: seq<Entry>, cs': seq<Entry>, checked: seq<ComponentSpec>,
        reply: Replies, timeout: Limit)
    requires MovedUpTo(j, Check, mid, cs', checked, reply, timeout)
    requires forall c | c in checked :: KeepsAt(cs, mid, c)
    ensures MovedUpTo(j, Check, cs, cs', checked, reply, timeout)
  {
    hide Get, Move, Stops;
    forall i | 0 <= i < |checked| ensures KeepsAt(cs, mid, checked[i]) { assert checked[i] in checked; }
    forall i | 0 <= i < j ensures MovesAt(Check, cs, cs', checked[i], reply, timeout) {
      assert MovesAt(Check, mid, cs', checked[i], reply, timeout);
    }
    forall i | j <= i < |checked| ensures KeepsAt(cs, cs', checked[i]) { assert KeepsAt(mid, cs', checked[i]); }
    forall i | 0 <= i < |checked|
      ensures StopsAt(Check, mid, checked[i], reply, timeout) <==> StopsAt(Check, cs, checked[i], reply, timeout)
    {
      assert KeepsAt(cs, mid, checked[i]);
    }
  }

  /** A pass over a level moves who is due, as its answers say. */
  lemma LevelMoves(s: E.Status, level: seq<ComponentSpec>, fetched: bool, reply: Replies, timeout: Limit)
    returns (k: nat, j: nat)
    requires AllSound(s.components) && UniqueNames(level)
    ensures MovesDue(k, j, s.components,
                     LevelPass(s, level, PhaseByName(s.components), fetched, reply, timeout).status.components,
                     level, fetched, reply, timeout)
  {
    hide Get, Select, PhaseByName, UniqueNames, SubmittedUpTo, MovedUpTo, AllSound, SubmitPass, ObservePass, CheckPass;
    k, j := 0, 0;
    var need := Select(level, PhaseByName(s.components), Submission);
    var watched := Select(level, PhaseByName(s.components), Observation);
    if (need == [] && watched == []) || fetched {
      hide MovesDue, LevelPass;
      if need != [] {
        k := SubmitsDue(s, level, reply, timeout);
      } else {
        k, j := WatchesDue(s, level, fetched, reply, timeout);
      }
    }
  }
}
