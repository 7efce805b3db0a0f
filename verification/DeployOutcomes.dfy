/**
  What a loop comes to: where each component ends up, whom it reaches, when it fails, and how long
  the pass then waits.
 */
module DeployOutcomes {
  import opened Wrappers
  import opened Template
  import opened DependencyGraph
  import opened ComponentStatus
  import E = Environment
  import opened Backoff
  import opened Deploy
  import opened DeployMoves
  import opened DeployLoops

  // ---- one component ---------------------------------------------------------------------------

  /** The answers that make a component ready. */
  predicate Readies(w: Work, e: Entry, c: ComponentSpec, a: Answer, timeout: Limit) {
    || (w == Adoption && IsShared(c) && a.submitted == Accepted(true))
    || (w == Observation && IsShared(c) && a.observed.JobSucceeded?)
    || (w == Check && a.checked.IsReady? && !Overdue(e, a.now, timeout))
  }

  /** The answers that make a component wait for a Job. */
  predicate Starts(w: Work, c: ComponentSpec, a: Answer) {
    || (w == Adoption && IsShared(c) && a.submitted == Accepted(false))
    || (w == Submission && !IsShared(c) && a.submitted.Accepted?)
  }

  /** The answers that make it wait for its readiness. */
  predicate Deploys(w: Work, c: ComponentSpec, a: Answer) {
    w == Observation && !IsShared(c) && a.observed.JobSucceeded?
  }

  /** The answers that end its work for good. */
  predicate Fails(w: Work, e: Entry, c: ComponentSpec, a: Answer, timeout: Limit) {
    || (w == Submission && IsShared(c) && a.submitted.AtCapacity?)
    || (Blames(w, e, c, a, timeout) && e.retries + 1 >= MAX_DEPLOY_RETRIES)
  }

  /** The answers that send it back. */
  predicate Returns(w: Work, e: Entry, c: ComponentSpec, a: Answer, timeout: Limit) {
    (Blames(w, e, c, a, timeout) && !Fails(w, e, c, a, timeout)) || (w == Observation && a.observed.JobPending?)
  }

  lemma PhasesOfMove(w: Work, e: Entry, c: ComponentSpec, a: Answer, timeout: Limit)
    requires Sound(e) && Fits(w, e, c, a) && w != Nothing
    ensures var f := Move(w, e, c, a, timeout);
      && (f.phase == Ready <==> Readies(w, e, c, a, timeout) || (f == e && e.phase == Ready))
      && (f.phase == Deploying <==> Deploys(w, c, a) || (f == e && e.phase == Deploying))
      && (f.phase == Submitting <==> Starts(w, c, a) || (f == e && e.phase == Submitting))
      && (f.phase == Failed <==> Fails(w, e, c, a, timeout) || (f == e && e.phase == Failed))
      && (f.phase == Pending <==> Returns(w, e, c, a, timeout) || (f == e && e.phase == Pending))
  {
    assert Wrap32(e.retries + 1) == e.retries + 1;
    hide Wrap32, Overdue;
  }

  lemma CountsOfMove(w: Work, e: Entry, c: ComponentSpec, a: Answer, timeout: Limit)
    requires Sound(e) && Fits(w, e, c, a) && w != Nothing
    ensures var f := Move(w, e, c, a, timeout);
      && f.retries == (if Readies(w, e, c, a, timeout) then 0
                       else if Blames(w, e, c, a, timeout) then e.retries + 1 else e.retries)
      && (f.shared <==> e.shared || (w == Adoption && IsShared(c) && a.submitted.Accepted?))
      && f.since == (if Blames(w, e, c, a, timeout) then None else if Deploys(w, c, a) then Some(a.now) else e.since)
  {
    assert Wrap32(e.retries + 1) == e.retries + 1;
    hide Wrap32, Overdue;
  }

  /** When each outcome comes: a move is told by the phase it ends in, for all answers; all else
      leaves the entry as it is. */
  lemma OutcomesOfMove(w: Work, e: Entry, c: ComponentSpec, a: Answer, timeout: Limit)
    requires Sound(e) && Fits(w, e, c, a) && w != Nothing
    ensures var f := Move(w, e, c, a, timeout);
      && (f.phase == Ready <==> Readies(w, e, c, a, timeout) || (f == e && e.phase == Ready))
      && (f.phase == Deploying <==> Deploys(w, c, a) || (f == e && e.phase == Deploying))
      && (f.phase == Submitting <==> Starts(w, c, a) || (f == e && e.phase == Submitting))
      && (f.phase == Failed <==> Fails(w, e, c, a, timeout) || (f == e && e.phase == Failed))
      && (f.phase == Pending <==> Returns(w, e, c, a, timeout) || (f == e && e.phase == Pending))
      && f.retries == (if Readies(w, e, c, a, timeout) then 0
                       else if Blames(w, e, c, a, timeout) then e.retries + 1 else e.retries)
      && (f.shared <==> e.shared || (w == Adoption && IsShared(c) && a.submitted.Accepted?))
      && f.since == (if Blames(w, e, c, a, timeout) then None else if Deploys(w, c, a) then Some(a.now) else e.since)
  {
    hide *;
    PhasesOfMove(w, e, c, a, timeout);
    CountsOfMove(w, e, c, a, timeout);
  }

  /** What is on record of a failure, and that success clears it. */
  lemma ReasonOfMove(w: Work, e: Entry, c: ComponentSpec, a: Answer, timeout: Limit)
    ensures var r := Move(w, e, c, a, timeout).reason;
      && (Readies(w, e, c, a, timeout) ==> r == "")
      && (w == Submission && a.submitted.Refused? ==> r == a.submitted.reason)
      && (w == Observation && a.observed.JobFailed? ==>
            r == (if IsShared(c) then "provision: " else "") + a.observed.reason)
      && (w == Check && Overdue(e, a.now, timeout) ==> r == TIMED_OUT + timeout.text)
      && (!Readies(w, e, c, a, timeout) && !Blames(w, e, c, a, timeout) ==> r == e.reason)
  {
    hide Wrap32, Overdue;
    assert "" + (if a.observed.JobFailed? then a.observed.reason else "") ==
           (if a.observed.JobFailed? then a.observed.reason else "");
  }

  /** A component is timed out exactly when more than the timeout has gone by since its start on record. */
  lemma TimesOutExactlyWhen(e: Entry, c: ComponentSpec, a: Answer, timeout: Limit)
    requires Sound(e) && Fits(Check, e, c, a)
    ensures Move(Check, e, c, a, timeout).retries == e.retries + 1 <==>
            e.since.Some? && a.now > e.since.value + timeout.value
  {
    assert Wrap32(e.retries + 1) == e.retries + 1;
    hide Wrap32;
  }

  /** While the Job of a component runs, or cannot be looked at, an observation leaves its entry. */
  lemma RunningKeepsEntry(t: Tally, c: ComponentSpec, a: Answer)
    requires a.observed.JobRunning? || a.observed.ObserveError?
    ensures Step(Observation, t, c, a, NO_LIMIT).status == t.status
    ensures a.observed.JobRunning? ==>
              Step(Observation, t, c, a, NO_LIMIT).running && Step(Observation, t, c, a, NO_LIMIT).over == t.over
    ensures a.observed.ObserveError? ==> Step(Observation, t, c, a, NO_LIMIT).over == Some(Errored)
  {
    hide Get;
  }

  // ---- whom a loop reaches ---------------------------------------------------------------------

  /** The answers at which a loop stops. */
  predicate Stops(w: Work, e: Entry, c: ComponentSpec, a: Answer, timeout: Limit) {
    match w
    case Nothing => false
    case Adoption => false
    case Submission => IsShared(c) && a.submitted.AtCapacity?
    case Observation => a.observed.ObserveError? || (!IsShared(c) && Fails(w, e, c, a, timeout))
    case Check =>
      if Overdue(e, a.now, timeout) then Fails(w, e, c, a, timeout) else a.checked.CheckError?
  }

  predicate Ends(t: Tally) {
    t.exhausted || t.status.phase == E.EnvPhase.Failed
  }

  /** What a step makes of the loop: an end of it, and of the environment. */
  predicate Closes(w: Work, t: Tally, c: ComponentSpec, a: Answer, timeout: Limit) {
    var e, u := Get(t.status.components, c.name), Step(w, t, c, a, timeout);
    && (Ends(u) <==> Ends(t) || Fails(w, e, c, a, timeout))
    && (t.over.None? ==> u.over == OverAt(w, e, c, a, timeout))
  }

  /** How it ends the loop. */
  function OverAt(w: Work, e: Entry, c: ComponentSpec, a: Answer, timeout: Limit): Option<Outcome> {
    if !Stops(w, e, c, a, timeout) then None
    else Some(if Fails(w, e, c, a, timeout) then Returned(Never) else Errored)
  }

  lemma SubmissionCloses(t: Tally, c: ComponentSpec, a: Answer)
    requires Sound(Get(t.status.components, c.name))
    ensures Closes(Submission, t, c, a, NO_LIMIT)
  {
    hide Get, AfterSubmit;
    assert Wrap32(Get(t.status.components, c.name).retries + 1) == Get(t.status.components, c.name).retries + 1;
    SubmitEnds(t, c, a.submitted);
  }

  lemma SubmitEnds(t: Tally, c: ComponentSpec, o: Submitted)
    ensures var u := AfterSubmit(t, c, o);
      var full := IsShared(c) && o.AtCapacity?;
      && (Ends(u) <==>
            Ends(t) || full || ((o.AtCapacity? || o.Refused?) && Exhausts(t.status.components, c.name)))
      && u.over == (if full then Some(Returned(Never)) else t.over)
  {
    hide Get, Struck, SetPhase, Exhausts;
  }

  lemma SharedCloses(t: Tally, c: ComponentSpec, a: Answer)
    requires Sound(Get(t.status.components, c.name)) && IsShared(c)
    ensures Closes(Observation, t, c, a, NO_LIMIT)
  {
    hide Get, Watched, AfterObserve, AfterObserveShared;
    assert Wrap32(Get(t.status.components, c.name).retries + 1) == Get(t.status.components, c.name).retries + 1;
    RaisedOnly(t, c, a.observed);
    WatchedEnds(t, c, a.observed);
  }

  lemma WatchedEnds(t: Tally, c: ComponentSpec, o: Observed)
    ensures var u := Watched(t, c, o);
      && (Ends(u) <==> Ends(t) || (o.JobFailed? && Exhausts(t.status.components, c.name)))
      && (u.over == if o.ObserveError? then Some(Errored) else t.over)
  {
    hide Get, Struck, SetPhase, ResetFailure, Exhausts;
  }

  lemma RaisedOnly(t: Tally, c: ComponentSpec, o: Observed)
    ensures var u := AfterObserveShared(t, c, o); u == Watched(t, c, o).(retrying := u.retrying)
  {
    hide Watched, Get;
  }

  lemma OwnCloses(t: Tally, c: ComponentSpec, a: Answer)
    requires Sound(Get(t.status.components, c.name)) && !IsShared(c)
    ensures Closes(Observation, t, c, a, NO_LIMIT)
  {
    hide Get, AfterObserve, AfterObserveShared;
    assert Wrap32(Get(t.status.components, c.name).retries + 1) == Get(t.status.components, c.name).retries + 1;
    OwnEnds(t, c, a.observed, a.now);
  }

  lemma OwnEnds(t: Tally, c: ComponentSpec, o: Observed, now: int)
    ensures var u := AfterObserve(t, c, o, now);
      var last := o.JobFailed? && Exhausts(t.status.components, c.name);
      && (Ends(u) <==> Ends(t) || last)
      && u.over == (if o.ObserveError? then Some(Errored) else if last then Some(Returned(Never)) else t.over)
  {
    hide Get, Struck, SetPhase, SetSince, Exhausts;
  }

  lemma CheckCloses(t: Tally, c: ComponentSpec, a: Answer, timeout: Limit)
    requires Sound(Get(t.status.components, c.name))
    ensures Closes(Check, t, c, a, timeout)
  {
    assert Wrap32(Get(t.status.components, c.name).retries + 1) == Get(t.status.components, c.name).retries + 1;
    hide Get, Wrap32, Struck, SetPhase, ResetFailure, Overdue;
  }

  lemma StepCloses(w: Work, t: Tally, c: ComponentSpec, a: Answer, timeout: Limit)
    requires Sound(Get(t.status.components, c.name)) && Fits(w, Get(t.status.components, c.name), c, a)
    ensures Closes(w, t, c, a, timeout)
  {
    match w {
      case Nothing => hide Get;
      case Adoption => hide Get, Adopted;
      case Submission => hide *; SubmissionUntimed(t, c, a, timeout); SubmissionCloses(t, c, a);
      case Observation => hide *;
        ObservationUntimed(t, c, a, timeout);
        if IsShared(c) { SharedCloses(t, c, a); } else { OwnCloses(t, c, a); }
      case Check => hide *; CheckCloses(t, c, a, timeout);
    }
  }

  lemma SubmissionUntimed(t: Tally, c: ComponentSpec, a: Answer, timeout: Limit)
    ensures Closes(Submission, t, c, a, timeout) <==> Closes(Submission, t, c, a, NO_LIMIT)
  {
    hide AfterSubmit, Get;
  }

  lemma ObservationUntimed(t: Tally, c: ComponentSpec, a: Answer, timeout: Limit)
    ensures Closes(Observation, t, c, a, timeout) <==> Closes(Observation, t, c, a, NO_LIMIT)
  {
    hide AfterObserve, AfterObserveShared, Get;
  }

  // The work of one loop, on the entries it started from.

  predicate StopsAt(w: Work, cs: seq<Entry>, c: ComponentSpec, reply: Replies, timeout: Limit) {
    Stops(w, Get(cs, c.name), c, reply(c.name), timeout)
  }

  predicate MovesAt(w: Work, cs: seq<Entry>, cs': seq<Entry>, c: ComponentSpec, reply: Replies, timeout: Limit) {
    Get(cs', c.name) == Move(w, Get(cs, c.name), c, reply(c.name), timeout)
  }

  predicate KeepsAt(cs: seq<Entry>, cs': seq<Entry>, c: ComponentSpec) {
    Get(cs', c.name) == Get(cs, c.name)
  }

  /** The loop comes to its first k components: they move as their answers say, the others stay;
      it is over at the last of them if that one stops it, and none before does. */
  ghost predicate ReachesTo(k: nat, w: Work, cs: seq<Entry>, u: Tally, need: seq<ComponentSpec>, reply: Replies,
          timeout: Limit) {
    && k <= |need|
    && (forall i | 0 <= i < k :: MovesAt(w, cs, u.status.components, need[i], reply, timeout))
    && (forall i | k <= i < |need| :: KeepsAt(cs, u.status.components, need[i]))
    && (forall i | 0 <= i < k - 1 :: !StopsAt(w, cs, need[i], reply, timeout))
    && u.over == (if k == 0 then None
                  else OverAt(w, Get(cs, need[k - 1].name), need[k - 1], reply(need[k - 1].name), timeout))
    && (k < |need| ==> u.over.Some?)
  }

  lemma {:induction false} LoopReaches(w: Work, t: Tally, need: seq<ComponentSpec>, reply: Replies, timeout: Limit)
    returns (k: nat)
    requires UniqueNames(need) && t.over.None? && AllSound(t.status.components)
    requires AllFit(w, t.status.components, need, reply)
    ensures ReachesTo(k, w, t.status.components, Steps(w, t, need, reply, timeout), need, reply, timeout)
    decreases |need|
  {
    hide Step, Get, Has, Move, Fits, Stops, Fails, Sound, UniqueEntries, UniqueNames, Ends, Rewrites, ReachesTo;
    if need == [] {
      k := 0;
      EmptyReaches(w, t.status.components, t, reply, timeout);
    } else {
      var cs := t.status.components;
      var c, rest := need[0], need[1..];
      var u := Step(w, t, c, reply(c.name), timeout);
      assert c in need;
      GetIsSound(cs, c.name);
      StepIsMove(w, t, c, reply(c.name), timeout);
      StepCloses(w, t, c, reply(c.name), timeout);
      StepKeepsSound(w, t, c, reply(c.name), timeout);
      StillFit(w, cs, u.status.components, need, reply, timeout);
      if u.over.Some? {
        k := 1;
        StoppedReaches(w, cs, u, need, reply, timeout);
        assert Steps(w, u, rest, reply, timeout) == u;
      } else {
        k := LoopReaches(w, u, rest, reply, timeout);
        StepsMove(w, u, rest, reply, timeout);
        OneMoreReaches(k, w, cs, u.status.components, Steps(w, u, rest, reply, timeout), need, reply, timeout);
        k := k + 1;
      }
    }
  }

  lemma EmptyReaches(w: Work, cs: seq<Entry>, t: Tally, reply: Replies, timeout: Limit)
    requires t.over.None?
    ensures ReachesTo(0, w, cs, t, [], reply, timeout)
  {
  }

  lemma StoppedReaches(w: Work, cs: seq<Entry>, u: Tally, need: seq<ComponentSpec>, reply: Replies, timeout: Limit)
    requires UniqueNames(need) && need != [] && u.over.Some?
    requires u.over == OverAt(w, Get(cs, need[0].name), need[0], reply(need[0].name), timeout)
    requires Rewrites(cs, u.status.components, need[0].name,
                      Move(w, Get(cs, need[0].name), need[0], reply(need[0].name), timeout))
    ensures ReachesTo(1, w, cs, u, need, reply, timeout)
  {
    hide Get, Has, Move, Stops, OverAt;
  }

  lemma OneMoreReaches(k: nat, w: Work, cs: seq<Entry>, mid: seq<Entry>, u: Tally, need: seq<ComponentSpec>,
        reply: Replies, timeout: Limit)
    requires UniqueNames(need) && need != [] && !StopsAt(w, cs, need[0], reply, timeout)
    requires Rewrites(cs, mid, need[0].name, Move(w, Get(cs, need[0].name), need[0], reply(need[0].name), timeout))
    requires Moved(w, mid, u.status.components, need[1..], reply, timeout)
    requires ReachesTo(k, w, mid, u, need[1..], reply, timeout)
    ensures ReachesTo(k + 1, w, cs, u, need, reply, timeout)
  {
    hide Get, Has, Move, Stops, Fails, UniqueEntries, UniqueNames, Touched;
    var rest, cs' := need[1..], u.status.components;
    NamesFirst(need);
    NotInNeed(w, mid, cs', rest, reply, timeout, need[0].name);
    forall i | 0 < i < |need|
      ensures need[i] == rest[i - 1] && Get(mid, need[i].name) == Get(cs, need[i].name)
    {
      assert rest[i - 1] in rest;
    }
    forall i | 0 <= i < k + 1 ensures MovesAt(w, cs, cs', need[i], reply, timeout) {
      if i > 0 { assert MovesAt(w, mid, cs', rest[i - 1], reply, timeout); }
    }
    forall i | k + 1 <= i < |need| ensures KeepsAt(cs, cs', need[i]) { assert KeepsAt(mid, cs', rest[i - 1]); }
    forall i | 0 <= i < k ensures !StopsAt(w, cs, need[i], reply, timeout) {
      if i > 0 { assert !StopsAt(w, mid, rest[i - 1], reply, timeout); }
    }
  }

  lemma StepKeepsSound(w: Work, t: Tally, c: ComponentSpec, a: Answer, timeout: Limit)
    requires AllSound(t.status.components) && Fits(w, Get(t.status.components, c.name), c, a)
    ensures AllSound(Step(w, t, c, a, timeout).status.components)
  {
    hide Step, Get, Has, Move, Fits, Sound;
    var cs, cs' := t.status.components, Step(w, t, c, a, timeout).status.components;
    StepIsMove(w, t, c, a, timeout);
    GetIsSound(cs, c.name);
    MoveIsLawful(w, Get(cs, c.name), c, a, timeout);
    forall i | 0 <= i < |cs'| ensures Sound(cs'[i]) {
      UniqueFind(cs', i);
      GetAt(cs', i);
      GetIsSound(cs, cs'[i].name);
    }
  }

  lemma StillFit(w: Work, cs: seq<Entry>, cs': seq<Entry>, need: seq<ComponentSpec>, reply: Replies, timeout: Limit)
    requires UniqueNames(need) && need != [] && AllFit(w, cs, need, reply)
    requires Rewrites(cs, cs', need[0].name, Move(w, Get(cs, need[0].name), need[0], reply(need[0].name), timeout))
    ensures UniqueNames(need[1..]) && AllFit(w, cs', need[1..], reply)
  {
    hide Get, Has, Move, Fits, UniqueEntries;
    NamesFirst(need);
    forall c | c in need[1..] ensures Fits(w, Get(cs', c.name), c, reply(c.name)) {
      var i :| 0 <= i < |need[1..]| && need[1..][i] == c;
      assert c.name != need[0].name;
    }
  }

  lemma SoundEntries(cs: seq<Entry>)
    requires AllSound(cs)
    ensures UniqueEntries(cs)
  {
  }

  // ---- when a loop fails the environment ----------------------------------------------------------

  /** Somebody failed that had not before. */
  ghost predicate NewlyFailed(cs: seq<Entry>, cs': seq<Entry>) {
    exists n: string :: FailsNow(Get(cs, n), Get(cs', n))
  }

  predicate FailsNow(e: Entry, f: Entry) {
    e.phase != Failed && f.phase == Failed
  }

  lemma MoveFailsNow(w: Work, e: Entry, c: ComponentSpec, a: Answer, timeout: Limit)
    requires Sound(e) && Fits(w, e, c, a)
    ensures w != Nothing ==> (FailsNow(e, Move(w, e, c, a, timeout)) <==> Fails(w, e, c, a, timeout))
    ensures w == Nothing ==> Move(w, e, c, a, timeout) == e && !Fails(w, e, c, a, timeout)
  {
    if w != Nothing { OutcomesOfMove(w, e, c, a, timeout); }
    hide Move, Blames, Overdue;
  }

  /** Failed components stay failed in a loop for others. */
  lemma {:induction false} StepsEnd(w: Work, t: Tally, need: seq<ComponentSpec>, reply: Replies, timeout: Limit)
    requires UniqueNames(need) && AllSound(t.status.components) && AllFit(w, t.status.components, need, reply)
    ensures var u := Steps(w, t, need, reply, timeout);
      Ends(u) <==> Ends(t) || NewlyFailed(t.status.components, u.status.components)
    decreases |need|
  {
    hide Step, Get, Has, Move, Fits, Fails, Sound, UniqueEntries, Ends, FailsNow;
    var cs := t.status.components;
    if need != [] && t.over.None? {
      var c := need[0];
      var u := Step(w, t, c, reply(c.name), timeout);
      assert c in need;
      GetIsSound(cs, c.name);
      StepIsMove(w, t, c, reply(c.name), timeout);
      StepCloses(w, t, c, reply(c.name), timeout);
      MoveFailsNow(w, Get(cs, c.name), c, reply(c.name), timeout);
      StepKeepsSound(w, t, c, reply(c.name), timeout);
      StillFit(w, cs, u.status.components, need, reply, timeout);
      StepsEnd(w, u, need[1..], reply, timeout);
      StepsMove(w, u, need[1..], reply, timeout);
      FailedFirst(w, cs, u.status.components, Steps(w, u, need[1..], reply, timeout).status.components, need, reply,
                  timeout);
    } else {
      NobodyFails(cs);
    }
  }

  lemma NobodyFails(cs: seq<Entry>)
    ensures !NewlyFailed(cs, cs)
  {
  }

  lemma FailedFirst(w: Work, cs: seq<Entry>, mid: seq<Entry>, cs': seq<Entry>, need: seq<ComponentSpec>,
        reply: Replies, timeout: Limit)
    requires UniqueNames(need) && need != []
    requires Rewrites(cs, mid, need[0].name, Move(w, Get(cs, need[0].name), need[0], reply(need[0].name), timeout))
    requires Moved(w, mid, cs', need[1..], reply, timeout)
    ensures NewlyFailed(cs, cs') <==>
            FailsNow(Get(cs, need[0].name), Get(mid, need[0].name)) || NewlyFailed(mid, cs')
  {
    hide Get, Has, Move, UniqueEntries, FailsNow;
    var x := need[0].name;
    NamesFirst(need);
    forall c | c in need[1..] ensures c.name != x {
      var i :| 0 <= i < |need[1..]| && need[1..][i] == c;
    }
    NotInNeed(w, mid, cs', need[1..], reply, timeout, x);
    SameFailsNot(Get(mid, x));
    assert forall n | n != x :: Get(mid, n) == Get(cs, n);
    if NewlyFailed(cs, cs') {
      var n :| FailsNow(Get(cs, n), Get(cs', n));
      if n != x { assert FailsNow(Get(mid, n), Get(cs', n)); }
    }
    if FailsNow(Get(cs, x), Get(mid, x)) { assert FailsNow(Get(cs, x), Get(cs', x)); }
    if NewlyFailed(mid, cs') {
      var n :| FailsNow(Get(mid, n), Get(cs', n));
      assert n != x;
      assert FailsNow(Get(cs, n), Get(cs', n));
    }
  }

  lemma SameFailsNot(e: Entry)
    ensures !FailsNow(e, e)
  {
  }
}
