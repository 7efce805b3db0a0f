/** Why an environment failed: the reason it reports is that of a component that failed in this pass. */
module DeployReasons {
  import opened Wrappers
  import opened Template
  import opened DependencyGraph
  import opened ComponentStatus
  import E = Environment
  import opened Deploy
  import opened DeployMoves
  import opened DeployLoops
  import opened DeployOutcomes
  import opened LevelOutcomes
  import opened EnvironmentPhase
  import opened DeployWaits

  /** What is said of a component that ends the environment. */
  function Said(w: Work, c: ComponentSpec, a: Answer): string {
    match w
    case Nothing => ""
    case Adoption => ""
    case Submission => if IsShared(c) && a.submitted.AtCapacity? then "SharedComponentAtCapacity" else "DeployFailed"
    case Observation => if IsShared(c) then "ProvisionFailed" else "DeployFailed"
    case Check => "ReadinessTimeout"
  }

  /** A failed submit is reported after the loop, all else at once. */
  predicate Speaks(w: Work, e: Entry, c: ComponentSpec, a: Answer, timeout: Limit) {
    Fails(w, e, c, a, timeout) && (w != Submission || (IsShared(c) && a.submitted.AtCapacity?))
  }

  predicate Says(w: Work, t: Tally, c: ComponentSpec, a: Answer, timeout: Limit) {
    Step(w, t, c, a, timeout).status.reason ==
    if Speaks(w, Get(t.status.components, c.name), c, a, timeout) then Said(w, c, a) else t.status.reason
  }

  lemma SubmissionSays(t: Tally, c: ComponentSpec, a: Answer)
    ensures Says(Submission, t, c, a, NO_LIMIT)
  {
    hide Get, Struck, SetPhase, Exhausts;
  }

  lemma OwnSays(t: Tally, c: ComponentSpec, a: Answer)
    requires Sound(Get(t.status.components, c.name)) && !IsShared(c)
    ensures Says(Observation, t, c, a, NO_LIMIT)
  {
    assert Wrap32(Get(t.status.components, c.name).retries + 1) == Get(t.status.components, c.name).retries + 1;
    hide Get, Wrap32, Struck, SetPhase, SetSince, AfterObserveShared;
  }

  lemma WatchedSays(t: Tally, c: ComponentSpec, o: Observed)
    ensures Watched(t, c, o).status.reason ==
            if o.JobFailed? && Exhausts(t.status.components, c.name) then "ProvisionFailed" else t.status.reason
  {
    hide Get, Struck, SetPhase, ResetFailure, Exhausts;
  }

  lemma SharedSays(t: Tally, c: ComponentSpec, a: Answer)
    requires Sound(Get(t.status.components, c.name)) && IsShared(c)
    ensures Says(Observation, t, c, a, NO_LIMIT)
  {
    hide Get, Watched, AfterObserve, AfterObserveShared;
    assert Wrap32(Get(t.status.components, c.name).retries + 1) == Get(t.status.components, c.name).retries + 1;
    RaisedOnly(t, c, a.observed);
    WatchedSays(t, c, a.observed);
  }

  lemma CheckSays(t: Tally, c: ComponentSpec, a: Answer, timeout: Limit)
    requires Sound(Get(t.status.components, c.name))
    ensures Says(Check, t, c, a, timeout)
  {
    assert Wrap32(Get(t.status.components, c.name).retries + 1) == Get(t.status.components, c.name).retries + 1;
    hide Get, Wrap32, Struck, SetPhase, ResetFailure, Overdue;
  }

  lemma StepSays(w: Work, t: Tally, c: ComponentSpec, a: Answer, timeout: Limit)
    requires w in {Submission, Observation, Check} && (w == Check || timeout == NO_LIMIT)
    requires Sound(Get(t.status.components, c.name))
    ensures Says(w, t, c, a, timeout)
  {
    hide Get, Sound, Says;
    match w {
      case Submission => SubmissionSays(t, c, a);
      case Observation => if IsShared(c) { SharedSays(t, c, a); } else { OwnSays(t, c, a); }
      case Check => CheckSays(t, c, a, timeout);
    }
  }

  /** Somebody in for this work failed now, and this is what is said of it. */
  ghost predicate Blamed(w: Work, cs: seq<Entry>, cs': seq<Entry>, need: seq<ComponentSpec>, reply: Replies,
          reason: string) {
    exists c | c in need :: FailsNow(Get(cs, c.name), Get(cs', c.name)) && reason == Said(w, c, reply(c.name))
  }

  /** The loop reports nobody, or one who failed in it: always when somebody failed, but for submits that
      only used up their retries. */
  lemma {:induction false} LoopSays(w: Work, t: Tally, need: seq<ComponentSpec>, reply: Replies, timeout: Limit)
    requires w in {Submission, Observation, Check} && (w == Check || timeout == NO_LIMIT)
    requires UniqueNames(need) && AllSound(t.status.components) && AllFit(w, t.status.components, need, reply)
    requires t.over.None?
    ensures var u := Steps(w, t, need, reply, timeout);
      || u.status.reason == t.status.reason
      || Blamed(w, t.status.components, u.status.components, need, reply, u.status.reason)
    ensures var u := Steps(w, t, need, reply, timeout);
      u.over == Some(Returned(Never)) || (w != Submission && NewlyFailed(t.status.components, u.status.components)) ==>
        Blamed(w, t.status.components, u.status.components, need, reply, u.status.reason)
    ensures var u := Steps(w, t, need, reply, timeout);
      !NewlyFailed(t.status.components, u.status.components) ==> u.status.reason == t.status.reason
    decreases |need|
  {
    hide Step, Get, Has, Move, Fits, Fails, Sound, UniqueEntries, UniqueNames, FailsNow, Said, Rewrites, Moved, Ends;
    hide Stops;
    var cs := t.status.components;
    if need == [] {
      NobodyFails(cs);
    } else {
      var c, rest := need[0], need[1..];
      var u := Step(w, t, c, reply(c.name), timeout);
      var v := Steps(w, u, rest, reply, timeout);
      assert c in need;
      GetIsSound(cs, c.name);
      StepIsMove(w, t, c, reply(c.name), timeout);
      StepSays(w, t, c, reply(c.name), timeout);
      MoveFailsNow(w, Get(cs, c.name), c, reply(c.name), timeout);
      StepKeepsSound(w, t, c, reply(c.name), timeout);
      StillFit(w, cs, u.status.components, need, reply, timeout);
      StepCloses(w, t, c, reply(c.name), timeout);
      StopsSpeak(w, Get(cs, c.name), c, reply(c.name), timeout);
      if u.over.None? {
        LoopSays(w, u, rest, reply, timeout);
      } else {
        NobodyFails(u.status.components);
      }
      StepsMove(w, u, rest, reply, timeout);
      FailedFirst(w, cs, u.status.components, v.status.components, need, reply, timeout);
      FirstThenRest(w, cs, u.status.components, v.status.components, need, reply, timeout);
      if Speaks(w, Get(cs, c.name), c, reply(c.name), timeout) {
        assert FailsNow(Get(cs, c.name), Get(v.status.components, c.name));
      }
    }
  }

  lemma StopsSpeak(w: Work, e: Entry, c: ComponentSpec, a: Answer, timeout: Limit)
    ensures OverAt(w, e, c, a, timeout) == Some(Returned(Never)) ==> Speaks(w, e, c, a, timeout)
  {
    hide Blames, Overdue;
  }

  lemma FirstThenRest(w: Work, cs: seq<Entry>, mid: seq<Entry>, cs': seq<Entry>, need: seq<ComponentSpec>,
        reply: Replies, timeout: Limit)
    requires UniqueNames(need) && need != []
    requires Rewrites(cs, mid, need[0].name, Move(w, Get(cs, need[0].name), need[0], reply(need[0].name), timeout))
    requires Moved(w, mid, cs', need[1..], reply, timeout)
    ensures Get(cs', need[0].name) == Get(mid, need[0].name)
    ensures Get(mid, need[0].name) == Move(w, Get(cs, need[0].name), need[0], reply(need[0].name), timeout)
    ensures forall reason :: Blamed(w, mid, cs', need[1..], reply, reason) ==> Blamed(w, cs, cs', need, reply, reason)
  {
    hide Get, Has, Move, UniqueEntries, UniqueNames, FailsNow, Said, Touched;
    NamesFirst(need);
    NotInNeed(w, mid, cs', need[1..], reply, timeout, need[0].name);
    assert need == [need[0]] + need[1..];
    forall c | c in need[1..] ensures Get(mid, c.name) == Get(cs, c.name) {
      var i :| 0 <= i < |need[1..]| && need[1..][i] == c;
    }
  }

  // ---- a level ----------------------------------------------------------------------------------------

  lemma BlamedLifts(w: Work, cs: seq<Entry>, mid: seq<Entry>, cs': seq<Entry>, need: seq<ComponentSpec>,
        reply: Replies, reason: string)
    requires Disjointly(cs, mid, cs')
    ensures Blamed(w, cs, mid, need, reply, reason) ==> Blamed(w, cs, cs', need, reply, reason)
    ensures Blamed(w, mid, cs', need, reply, reason) ==> Blamed(w, cs, cs', need, reply, reason)
  {
    hide Get, Said;
  }

  lemma SubmitSays(s: E.Status, need: seq<ComponentSpec>, reply: Replies)
    requires AllSound(s.components) && UniqueNames(need) && AllFit(Adoption, s.components, need, reply)
    requires s.phase != E.EnvPhase.Failed
    ensures var s' := SubmitPass(s, need, reply).status;
      if NewlyFailed(s.components, s'.components) then
        Blamed(Submission, s.components, s'.components, need, reply, s'.reason)
      else s'.reason == s.reason
  {
    hide Steps, SubmitPass, Get, UniqueNames, AllSound, AllFit, ReachesTo, SubmittedUpTo, NewlyFailed, Moved, Blamed;
    hide Disjointly;
    var mid, t, k := SubmitReaches(s, need, reply);
    var cs, cs' := s.components, t.status.components;
    AdoptionOnlyAdopts(Blank(s), need, reply);
    StepsEnd(Adoption, Blank(s), need, reply, NO_LIMIT);
    StepsEnd(Submission, Blank(mid), need, reply, NO_LIMIT);
    LoopSays(Submission, Blank(mid), need, reply, NO_LIMIT);
    SubmittedDisjointly(cs, mid.components, cs', need, reply);
    FailedTwice(cs, mid.components, cs');
    SubmitFails(s, need, reply);
    SubmitStatus(s, need, reply, t);
    BlamedLifts(Submission, cs, mid.components, cs', need, reply, t.status.reason);
    BlamedLifts(Submission, cs, mid.components, cs', need, reply, "DeployFailed");
    SubmittedEnd(k, mid, t, need, reply);
  }

  lemma SubmitStatus(s: E.Status, need: seq<ComponentSpec>, reply: Replies, t: Tally)
    requires var mid := Steps(Adoption, Blank(s), need, reply, NO_LIMIT).status;
      t == Steps(Submission, Blank(mid), need, reply, NO_LIMIT)
    ensures SubmitPass(s, need, reply).status ==
            if t.over.None? && t.exhausted then FailWith(t.status, "DeployFailed") else t.status
  {
    hide Steps, Retry;
  }

  /** A loop of submits that goes through and used up retries: somebody is to be reported as such. */
  lemma SubmittedEnd(k: nat, s: E.Status, t: Tally, need: seq<ComponentSpec>, reply: Replies)
    requires AllSound(s.components) && UniqueNames(need) && AllFit(Submission, s.components, need, reply)
    requires s.phase != E.EnvPhase.Failed && t == Steps(Submission, Blank(s), need, reply, NO_LIMIT)
    requires ReachesTo(k, Submission, s.components, t, need, reply, NO_LIMIT)
    ensures t.over in {None, Some(Returned(Never))}
    ensures t.over.None? && NewlyFailed(s.components, t.status.components) ==>
              t.exhausted && Blamed(Submission, s.components, t.status.components, need, reply, "DeployFailed")
    ensures t.over.None? && !NewlyFailed(s.components, t.status.components) ==> !t.exhausted
  {
    hide Steps, Get, UniqueNames, AllSound, AllFit, Moved, FailsNow, Move, Fits, Stops, Fails, ReachesTo;
    StepsEnd(Submission, Blank(s), need, reply, NO_LIMIT);
    StepsMove(Submission, Blank(s), need, reply, NO_LIMIT);
    SubmittedOver(k, s.components, t, need, reply);
    if t.over.None? {
      ReachedIsMoved(k, Submission, s.components, t, need, reply, NO_LIMIT);
      OnlyQuitFails(Blank(s), need, reply);
      if NewlyFailed(s.components, t.status.components) {
        var n :| FailsNow(Get(s.components, n), Get(t.status.components, n));
        var c := FailedIsNeeded(s.components, t.status.components, need, reply, n);
        NotFull(s.components, c, reply);
        assert "DeployFailed" == Said(Submission, c, reply(c.name));
      }
    }
  }

  lemma NotFull(cs: seq<Entry>, c: ComponentSpec, reply: Replies)
    ensures !StopsAt(Submission, cs, c, reply, NO_LIMIT) ==> Said(Submission, c, reply(c.name)) == "DeployFailed"
  {
    hide Get;
  }

  lemma FailedIsNeeded(cs: seq<Entry>, cs': seq<Entry>, need: seq<ComponentSpec>, reply: Replies, n: string)
    returns (c: ComponentSpec)
    requires Moved(Submission, cs, cs', need, reply, NO_LIMIT) && FailsNow(Get(cs, n), Get(cs', n))
    ensures c in need && c.name == n
  {
    hide Get, Has, Move, UniqueEntries;
    assert Touched(Submission, Get(cs, n), Get(cs', n), need, n, reply, NO_LIMIT);
    c :| c in need && c.name == n;
  }

  /** Whoever the pass reports was in for this work, and failed in it. */
  ghost predicate BlamedInLevel(cs: seq<Entry>, cs': seq<Entry>, level: seq<ComponentSpec>, reply: Replies,
          reason: string) {
    exists w, c | w in {Submission, Observation, Check} && c in level ::
      && InFor(w, Get(cs, c.name).phase) && FailsNow(Get(cs, c.name), Get(cs', c.name))
      && reason == Said(w, c, reply(c.name))
  }

  lemma BlamedIsInLevel(w: Work, cs: seq<Entry>, cs': seq<Entry>, level: seq<ComponentSpec>, reply: Replies,
          reason: string)
    requires UniqueEntries(cs) && w in {Submission, Observation, Check}
    requires Blamed(w, cs, cs', Select(level, PhaseByName(cs), w), reply, reason)
    ensures BlamedInLevel(cs, cs', level, reply, reason)
  {
    hide Get, Select, PhaseByName, UniqueEntries, Said, FailsNow;
    var c :| c in Select(level, PhaseByName(cs), w)
        && FailsNow(Get(cs, c.name), Get(cs', c.name)) && reason == Said(w, c, reply(c.name));
    SelectedAre(cs, level, w, c);
  }

  lemma WatchesSay(s: E.Status, level: seq<ComponentSpec>, reply: Replies, timeout: Limit)
    requires AllSound(s.components) && UniqueNames(level)
    ensures var phases := PhaseByName(s.components);
      var watched, checked := Select(level, phases, Observation), Select(level, phases, Check);
      var mid := ObservePass(s, watched, reply).status;
      && Reported(s, mid, level, reply)
      && Reported(s, CheckPass(mid, checked, reply, timeout).status, level, reply)
      && Reported(s, CheckPass(s, checked, reply, timeout).status, level, reply)
  {
    hide Steps, Get, Select, PhaseByName, UniqueNames, AllFit, AllSound, Moved, NewlyFailed, Blamed, BlamedInLevel;
    hide ReachesTo, MovedUpTo, Disjointly, UniqueEntries;
    var cs, phases := s.components, PhaseByName(s.components);
    var watched, checked := Select(level, phases, Observation), Select(level, phases, Check);
    SoundEntries(cs);
    SelectUnique(level, phases, Observation);
    SelectUnique(level, phases, Check);
    SelectedFit(cs, level, Observation, reply);
    SelectedFit(cs, level, Check, reply);
    var t, _ := WatchReaches(Observation, s, watched, reply, NO_LIMIT);
    var mid := t.status;
    WatchedStillDue(cs, mid.components, level, reply);
    var u, _ := WatchReaches(Check, mid, checked, reply, timeout);
    var v, _ := WatchReaches(Check, s, checked, reply, timeout);
    LoopSays(Observation, Blank(s), watched, reply, NO_LIMIT);
    LoopSays(Check, Blank(mid), checked, reply, timeout);
    LoopSays(Check, Blank(s), checked, reply, timeout);
    WatchedDisjointly(cs, mid.components, u.status.components, level, reply, timeout);
    FailedTwice(cs, mid.components, u.status.components);
    BlamedLifts(Observation, cs, mid.components, u.status.components, watched, reply, mid.reason);
    BlamedLifts(Check, cs, mid.components, u.status.components, checked, reply, u.status.reason);
    if NewlyFailed(cs, mid.components) {
      BlamedIsInLevel(Observation, cs, mid.components, level, reply, mid.reason);
      BlamedIsInLevel(Observation, cs, u.status.components, level, reply, mid.reason);
    }
    if NewlyFailed(mid.components, u.status.components) {
      BlamedIsInLevel(Check, cs, u.status.components, level, reply, u.status.reason);
    }
    if NewlyFailed(cs, v.status.components) {
      BlamedIsInLevel(Check, cs, v.status.components, level, reply, v.status.reason);
    }
  }

  /** Nobody failed and nothing is reported, or one of those who failed is. */
  ghost predicate Reported(s: E.Status, s': E.Status, level: seq<ComponentSpec>, reply: Replies) {
    if NewlyFailed(s.components, s'.components) then
      BlamedInLevel(s.components, s'.components, level, reply, s'.reason)
    else s'.reason == s.reason
  }

  /** A pass over a level reports why the environment fails: the reason is that of a component that failed
      in this pass, by the work that it was in for; and without one the reason stays as it was. */
  lemma LevelReports(s: E.Status, level: seq<ComponentSpec>, fetched: bool, reply: Replies, timeout: Limit)
    requires AllSound(s.components) && UniqueNames(level) && s.phase != E.EnvPhase.Failed
    ensures Reported(s, LevelPass(s, level, PhaseByName(s.components), fetched, reply, timeout).status, level, reply)
  {
    hide Get, Select, PhaseByName, UniqueNames, AllFit, AllSound, SubmitPass, ObservePass, CheckPass, NewlyFailed;
    hide Blamed, BlamedInLevel, UniqueEntries;
    var phases := PhaseByName(s.components);
    var need := Select(level, phases, Submission);
    NobodyFails(s.components);
    SoundEntries(s.components);
    SelectUnique(level, phases, Submission);
    SelectedFit(s.components, level, Submission, reply);
    SubmitSays(s, need, reply);
    WatchesSay(s, level, reply, timeout);
    var s' := SubmitPass(s, need, reply).status;
    if NewlyFailed(s.components, s'.components) {
      BlamedIsInLevel(Submission, s.components, s'.components, level, reply, s'.reason);
    }
  }
}
