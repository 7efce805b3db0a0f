/** What every run of passes keeps: component by component, and for the environment. */
module DeployRuns {
  import opened Wrappers
  import opened Template
  import opened DependencyGraph
  import opened Kahn
  import opened ComponentStatus
  import E = Environment
  import opened Backoff
  import opened Deploy
  import opened DeployMoves
  import opened DeployLoops
  import opened Reconcile

  lemma ObserveThenCheck(s: E.Status, level: seq<ComponentSpec>, reply: Replies, timeout: Limit)
    requires AllSound(s.components) && UniqueNames(level)
    ensures var phases := PhaseByName(s.components);
      var watched := Select(level, phases, Observation);
      var mid := ObservePass(s, watched, reply).status;
      && Progress(s, mid, reply, timeout)
      && Progress(s, CheckPass(mid, Select(level, phases, Check), reply, timeout).status, reply, timeout)
      && Progress(s, CheckPass(s, Select(level, phases, Check), reply, timeout).status, reply, timeout)
  {
    hide Steps, Get, Has, Touched, AllFit, UniqueNames, Spent, Lawful, AllLawful, Progress, Moved, Select;
    hide PhaseByName, Sound;
    var phases := PhaseByName(s.components);
    var watched, checked := Select(level, phases, Observation), Select(level, phases, Check);
    var mid := Steps(Observation, Blank(s), watched, reply, NO_LIMIT).status;
    SelectUnique(level, phases, Observation);
    SelectUnique(level, phases, Check);
    SelectedFit(s.components, level, Observation, reply);
    SelectedFit(s.components, level, Check, reply);
    WatchProgress(Observation, s, watched, reply, NO_LIMIT, timeout);
    WatchProgress(Check, s, checked, reply, timeout, timeout);
    ProgressIsSound(s, mid, reply, timeout);
    WatchedStillFit(s.components, mid.components, level, reply);
    WatchProgress(Check, mid, checked, reply, timeout, timeout);
    var s' := Steps(Check, Blank(mid), checked, reply, timeout).status;
    forall n ensures Get(mid.components, n) == Get(s.components, n) || Get(s'.components, n) == Get(mid.components, n) {
      OneOrTheOther(s.components, mid.components, s'.components, level, reply, timeout, n);
    }
    ProgressTwice(s, mid, s', reply, timeout);
  }

  lemma OneOrTheOther(cs: seq<Entry>, mid: seq<Entry>, cs': seq<Entry>, level: seq<ComponentSpec>, reply: Replies,
        timeout: Limit, n: string)
    requires Moved(Observation, cs, mid, Select(level, PhaseByName(cs), Observation), reply, NO_LIMIT)
    requires Moved(Check, mid, cs', Select(level, PhaseByName(cs), Check), reply, timeout)
    ensures Get(mid, n) == Get(cs, n) || Get(cs', n) == Get(mid, n)
  {
    hide Get, Select, PhaseByName, Moved;
    var phases := PhaseByName(cs);
    if exists c | c in Select(level, phases, Check) :: c.name == n {
      var c :| c in Select(level, phases, Check) && c.name == n;
      SelectIsExact(level, phases, Check, c);
      forall d | d in Select(level, phases, Observation) ensures d.name != n {
        SelectIsExact(level, phases, Observation, d);
      }
      NotInNeed(Observation, cs, mid, Select(level, phases, Observation), reply, NO_LIMIT, n);
    } else {
      NotInNeed(Check, mid, cs', Select(level, phases, Check), reply, timeout, n);
    }
  }

  lemma WatchedStillFit(cs: seq<Entry>, mid: seq<Entry>, level: seq<ComponentSpec>, reply: Replies)
    requires UniqueEntries(cs)
    requires Moved(Observation, cs, mid, Select(level, PhaseByName(cs), Observation), reply, NO_LIMIT)
    ensures AllFit(Check, mid, Select(level, PhaseByName(cs), Check), reply)
  {
    hide Get, Select, PhaseByName, Moved, UniqueEntries;
    var phases := PhaseByName(cs);
    SelectedFit(cs, level, Check, reply);
    forall c | c in Select(level, phases, Check) ensures Fits(Check, Get(mid, c.name), c, reply(c.name)) {
      SelectIsExact(level, phases, Check, c);
      forall d | d in Select(level, phases, Observation) ensures d.name != c.name {
        SelectIsExact(level, phases, Observation, d);
      }
      NotInNeed(Observation, cs, mid, Select(level, phases, Observation), reply, NO_LIMIT, c.name);
      assert Fits(Check, Get(cs, c.name), c, reply(c.name));
    }
  }

  lemma LevelProgress(s: E.Status, level: seq<ComponentSpec>, fetched: bool, reply: Replies, timeout: Limit)
    requires AllSound(s.components) && UniqueNames(level)
    ensures Progress(s, LevelPass(s, level, PhaseByName(s.components), fetched, reply, timeout).status, reply, timeout)
  {
    hide Select, PhaseByName, UniqueNames, Progress, Steps, Sound, AllFit, SubmitPass, ObservePass, CheckPass;
    var phases := PhaseByName(s.components);
    NoProgress(s, reply, timeout);
    SelectUnique(level, phases, Submission);
    SelectedFit(s.components, level, Submission, reply);
    SubmitProgress(s, Select(level, phases, Submission), reply, timeout);
    ObserveThenCheck(s, level, reply, timeout);
  }

  // ---- one pass ----------------------------------------------------------------------

  /** The phases an environment may go to from `before` in one pass. */
  predicate EnvLawful(before: E.EnvPhase, after: E.EnvPhase, expires: bool) {
    if expires then after == E.EnvPhase.Terminating
    else before == E.EnvPhase.Failed ==> after == E.EnvPhase.Failed
  }

  function Timeout(p: Pass): Limit {
    if p.gate.Opens? then p.gate.timeout else NO_LIMIT
  }

  /** Within a generation a pass moves every component as the table allows, uses up retries
      only when it fails the environment, and leaves a failed one alone. */
  ghost predicate PassLawful(s: E.Status, s': E.Status, p: Pass) {
    && AllSound(s'.components)
    && AllLawful(s.components, s'.components, p.reply, Timeout(p))
    && EnvLawful(s.phase, s'.phase, p.gate.Expires?)
    && (s.phase == E.EnvPhase.Failed ==> s'.components == s.components)
    && (forall n :: Spent(s'.components, n) && !Spent(s.components, n) ==> s'.phase == E.EnvPhase.Failed)
  }

  lemma ProgressIsLawful(s: E.Status, s1: E.Status, s': E.Status, p: Pass)
    requires Progress(s1, s', p.reply, Timeout(p)) && s1.components == s.components && !p.gate.Expires?
    requires s.phase == E.EnvPhase.Failed ==> s'.phase == E.EnvPhase.Failed && s'.components == s.components
    ensures PassLawful(s, s', p)
  {
  }

  lemma OpenIsLawful(s: E.Status, p: Pass, levels: Levels)
    requires p.gate.Opens? && !p.reset && s.phase != E.EnvPhase.Failed && AllSound(s.components)
    requires forall l | 0 <= l < |levels| :: UniqueNames(levels[l])
    ensures PassLawful(s, Open(s, p, levels).status, p)
  {
    hide UniqueNames, Progress, LevelPass, PassLawful, AllSound, PhaseByName, AllReady;
    var phases := PhaseByName(s.components);
    var first := FirstPending(levels, phases);
    var s1 := EnterDeploying(s, first < |levels|);
    if first < |levels| {
      LevelProgress(s1, levels[first], p.fetched, p.reply, p.gate.timeout);
      ProgressIsLawful(s, s1, Open(s, p, levels).status, p);
    } else {
      var s' := s1.(phase := E.EnvPhase.Ready);
      NoProgress(s', p.reply, p.gate.timeout);
      ProgressIsLawful(s, s', s', p);
    }
  }

  /** Does the pass get as far as the levels? */
  predicate Deploys(s: E.Status, p: Pass, levels: Result<Levels, GraphError>) {
    p.gate.Opens? && levels.Ok? && s.phase != E.EnvPhase.Failed
        && !exists c | c in p.gate.components :: TooLong(p.envName, c)
  }

  lemma QuietPass(s: E.Status, p: Pass, levels: Result<Levels, GraphError>)
    requires !p.reset && !Deploys(s, p, levels)
    ensures var s' := AfterPass(s, p, levels).status;
      s'.components == s.components && EnvLawful(s.phase, s'.phase, p.gate.Expires?)
  {
    hide Open, TooLong;
  }

  lemma DeployPass(s: E.Status, p: Pass, levels: Result<Levels, GraphError>)
    requires !p.reset && Deploys(s, p, levels)
    ensures AfterPass(s, p, levels) == Open(s, p, levels.value)
  {
    hide Open, TooLong;
  }

  lemma PassIsLawful(s: E.Status, p: Pass, levels: Result<Levels, GraphError>)
    requires !p.reset && AllSound(s.components) && Answers(p, levels)
    ensures PassLawful(s, AfterPass(s, p, levels).status, p)
  {
    hide UniqueNames, KnownDependencies, Acyclic, Progress, Open, AllSound, AllLawful, Spent, TooLong, AfterPass;
    hide EnvLawful;
    if Deploys(s, p, levels) {
      hide PassLawful;
      LevelsUnique(p, levels.value);
      DeployPass(s, p, levels);
      OpenIsLawful(s, p, levels.value);
    } else {
      var s' := AfterPass(s, p, levels).status;
      QuietPass(s, p, levels);
      NoProgress(s, p.reply, Timeout(p));
      SameComponents(s, s', p.reply, Timeout(p));
    }
  }

  lemma SameComponents(s: E.Status, s': E.Status, reply: Replies, timeout: Limit)
    requires Progress(s, s, reply, timeout) && s'.components == s.components
    ensures AllSound(s'.components) && AllLawful(s.components, s'.components, reply, timeout)
  {
  }

  lemma LevelsUnique(p: Pass, levels: Levels)
    requires p.gate.Opens? && ExactLevels(p.gate.components, levels)
    ensures forall l | 0 <= l < |levels| :: UniqueNames(levels[l])
  {
  }

  // ---- runs --------------------------------------------------------------------------

  /** A pass, what BuildLevels answered it, and whether its status reached the server. */
  datatype Turn = Turn(pass: Pass, levels: Result<Levels, GraphError>, persisted: bool)

  ghost predicate Honest(run: seq<Turn>) {
    forall t | t in run :: Answers(t.pass, t.levels) && !t.pass.reset
  }

  function Next(s: E.Status, t: Turn): E.Status {
    if t.persisted then AfterPass(s, t.pass, t.levels).status else s
  }

  function Run(s: E.Status, run: seq<Turn>): E.Status
    decreases |run|
  {
    if run == [] then s else Run(Next(s, run[0]), run[1..])
  }

  /** The pass finds the environment expired, and its status reaches the server. */
  predicate Expires(t: Turn) {
    t.persisted && t.pass.gate.Expires?
  }

  ghost predicate NeverExpires(run: seq<Turn>) {
    forall t | t in run :: !Expires(t)
  }

  /** Used-up retries are found in a failed environment only. */
  ghost predicate SpentMeansFailed(s: E.Status) {
    forall n :: Spent(s.components, n) ==> s.phase == E.EnvPhase.Failed
  }

  /** Over a whole generation: names stay unique, retries stay below five unless the
      component failed, a deploying component has its start on record (AllSound); a ready or
      failed component is never touched again; a failed environment stays as it is, and nothing
      else has used-up retries, as long as no pass that finds it expired is persisted. */
  lemma {:induction false} GenerationIsLawful(s: E.Status, run: seq<Turn>)
    requires AllSound(s.components) && Honest(run)
    ensures AllSound(Run(s, run).components)
    ensures forall n :: Get(s.components, n).phase in {Ready, Failed} ==>
              Get(Run(s, run).components, n) == Get(s.components, n)
    ensures NeverExpires(run) && s.phase == E.EnvPhase.Failed ==> Run(s, run).(reason := s.reason) == s
    ensures NeverExpires(run) && SpentMeansFailed(s) ==> SpentMeansFailed(Run(s, run))
    decreases |run|
  {
    hide AllSound, Get, Answers, Spent, SpentMeansFailed, Next, Expires;
    if run != [] {
      var t := run[0];
      assert t in run && Answers(t.pass, t.levels) && !t.pass.reset;
      TurnIsLawful(s, t);
      assert NeverExpires(run) ==> !Expires(t) && NeverExpires(run[1..]);
      GenerationIsLawful(Next(s, t), run[1..]);
    }
  }

  /** One turn of it. */
  lemma TurnIsLawful(s: E.Status, t: Turn)
    requires AllSound(s.components) && Answers(t.pass, t.levels) && !t.pass.reset
    ensures AllSound(Next(s, t).components)
    ensures forall n :: Get(s.components, n).phase in {Ready, Failed} ==>
              Get(Next(s, t).components, n) == Get(s.components, n)
    ensures !Expires(t) && s.phase == E.EnvPhase.Failed ==> Next(s, t).(reason := s.reason) == s
    ensures !Expires(t) && SpentMeansFailed(s) ==> SpentMeansFailed(Next(s, t))
  {
    hide AfterPass, AllSound, Get, Answers, Spent, SpentMeansFailed;
    if t.persisted {
      PassIsLawful(s, t.pass, t.levels);
      LawfulStays(s, Next(s, t), t.pass);
    }
  }

  // ---- exactly when a failed environment stays failed -----------------------------------------

  lemma ExpiredIsTerminating(s: E.Status, t: Turn)
    requires Expires(t) && !t.pass.reset
    ensures Next(s, t) == s.(phase := E.EnvPhase.Terminating)
  {
    hide Open;
  }

  /** One pass keeps a failed environment failed exactly unless it is a persisted expiry; and it
      keeps used-up retries to failed environments exactly unless it expires one that has some. */
  lemma FailureIsLeftExactlyWhen(s: E.Status, t: Turn)
    requires AllSound(s.components) && Answers(t.pass, t.levels) && !t.pass.reset
    ensures AllSound(Next(s, t).components)
    ensures s.phase == E.EnvPhase.Failed ==> (Next(s, t).phase == E.EnvPhase.Failed <==> !Expires(t))
    ensures SpentMeansFailed(s) ==>
              (SpentMeansFailed(Next(s, t)) <==> !(Expires(t) && exists n :: Spent(s.components, n)))
  {
    hide AfterPass, AllSound, Answers, Spent;
    if t.persisted {
      PassIsLawful(s, t.pass, t.levels);
      LawfulStays(s, Next(s, t), t.pass);
    }
    if Expires(t) { ExpiredIsTerminating(s, t); }
  }

  ghost predicate FailedThroughout(s: E.Status, run: seq<Turn>)
    decreases |run|
  {
    s.phase == E.EnvPhase.Failed && (run == [] || FailedThroughout(Next(s, run[0]), run[1..]))
  }

  /** Over any run of one generation: a failed environment is failed all along exactly when no
      expiry is persisted. */
  lemma {:induction false} FailedStaysExactlyWhen(s: E.Status, run: seq<Turn>)
    requires AllSound(s.components) && Honest(run) && s.phase == E.EnvPhase.Failed
    ensures FailedThroughout(s, run) <==> NeverExpires(run)
    decreases |run|
  {
    hide AllSound, Answers, Next, Expires, SpentMeansFailed, Spent;
    if run != [] {
      assert run[0] in run;
      FailureIsLeftExactlyWhen(s, run[0]);
      if !Expires(run[0]) {
        FailedStaysExactlyWhen(Next(s, run[0]), run[1..]);
        assert forall t | t in run :: t == run[0] || t in run[1..];
      }
    }
  }

  ghost predicate SpentThroughout(s: E.Status, run: seq<Turn>)
    decreases |run|
  {
    SpentMeansFailed(s) && (run == [] || SpentThroughout(Next(s, run[0]), run[1..]))
  }

  /** No persisted expiry meets an environment with used-up retries. */
  ghost predicate NeverExpiresSpent(s: E.Status, run: seq<Turn>)
    decreases |run|
  {
    run == []
    || (!(Expires(run[0]) && exists n :: Spent(s.components, n)) && NeverExpiresSpent(Next(s, run[0]), run[1..]))
  }

  /** Over any run of one generation: used-up retries are found in a failed environment only, all
      along, exactly when no expiry of an environment that has some is persisted. */
  lemma {:induction false} SpentStaysExactlyWhen(s: E.Status, run: seq<Turn>)
    requires AllSound(s.components) && Honest(run) && SpentMeansFailed(s)
    ensures SpentThroughout(s, run) <==> NeverExpiresSpent(s, run)
    decreases |run|
  {
    hide AllSound, Answers, Next, Expires, SpentMeansFailed, Spent;
    if run != [] {
      var t := Next(s, run[0]);
      assert run[0] in run;
      FailureIsLeftExactlyWhen(s, run[0]);
      if SpentMeansFailed(t) {
        SpentStaysExactlyWhen(t, run[1..]);
      } else {
        assert !SpentThroughout(t, run[1..]);
      }
    }
  }

  lemma LawfulStays(s: E.Status, s': E.Status, p: Pass)
    requires PassLawful(s, s', p)
    ensures AllSound(s'.components)
    ensures forall n :: Get(s.components, n).phase in {Ready, Failed} ==> Get(s'.components, n) == Get(s.components, n)
    ensures !p.gate.Expires? && s.phase == E.EnvPhase.Failed ==> s'.phase == s.phase && s'.components == s.components
    ensures !p.gate.Expires? && SpentMeansFailed(s) ==> SpentMeansFailed(s')
  {
    hide AllSound, Get, Spent;
    forall n | Get(s.components, n).phase in {Ready, Failed} ensures Get(s'.components, n) == Get(s.components, n) {
      assert Lawful(Get(s.components, n), Get(s'.components, n), p.reply(n).now, Timeout(p));
    }
  }

  /** Expiry is the one way out of failure, and a way out: when the deletion it asks for does not go through
      and the deadline moves, the environment is back at deploying, a component with used-up
      retries and all. */
  lemma ExpiryRevives(s: E.Status, expiry: Turn, open: Turn, c: ComponentSpec)
    requires s.phase == E.EnvPhase.Failed && AllSound(s.components)
    requires Has(s.components, c.name) && Get(s.components, c.name).phase == Failed
    requires !expiry.pass.reset && expiry.persisted && !open.pass.reset && open.persisted
    requires expiry.pass.gate.Expires? && open.pass.gate.Opens?
    requires open.pass.gate.components == [c] && open.levels == Ok([[c]]) && !TooLong(open.pass.envName, c)
    requires Answers(open.pass, open.levels)
    ensures Run(s, [expiry, open]) == s.(phase := E.EnvPhase.Deploying)
  {
    hide AfterPass, TooLong, Next, Sound;
    var mid := s.(phase := E.EnvPhase.Terminating);
    assert Next(s, expiry) == mid by { ExpiredIsTerminating(s, expiry); }
    assert Next(mid, open) == s.(phase := E.EnvPhase.Deploying) by { StuckPass(mid, open, c); }
    RunTwo(s, expiry, open);
  }

  lemma RunTwo(s: E.Status, a: Turn, b: Turn)
    ensures Run(s, [a, b]) == Next(Next(s, a), b)
  {
    hide Next;
    assert [a, b][1..] == [b] && [b][1..] == [];
    assert Run(Next(s, a), [b]) == Run(Next(Next(s, a), b), []);
  }

  /** A level of failed components in an environment that has not failed: nothing happens. */
  lemma StuckPass(s: E.Status, open: Turn, c: ComponentSpec)
    requires s.phase == E.EnvPhase.Terminating && UniqueEntries(s.components)
    requires Has(s.components, c.name) && Get(s.components, c.name).phase == Failed
    requires open.persisted && !open.pass.reset && open.pass.gate.Opens?
    requires open.pass.gate.components == [c] && open.levels == Ok([[c]]) && !TooLong(open.pass.envName, c)
    ensures Next(s, open) == s.(phase := E.EnvPhase.Deploying)
  {
    var phases := PhaseByName(s.components);
    PhaseByNameIsGet(s.components, c.name);
    assert c in [c] && !AllReady([c], phases);
    assert FirstPending([[c]], phases) == 0;
    assert WorkOf(phases, c.name) == Nothing;
    hide PhaseByName, Get, TooLong, WorkOf, Has, Step, UniqueEntries, AllReady;
    NothingSelected(c, phases);
  }

  lemma NothingSelected(c: ComponentSpec, phases: map<string, ComponentPhase>)
    requires WorkOf(phases, c.name) == Nothing
    ensures Select([c], phases, Submission) == [] && Select([c], phases, Observation) == []
    ensures Select([c], phases, Check) == []
  {
    hide WorkOf;
    forall w: Work | w != Nothing ensures Select([c], phases, w) == [] {
      assert [c][1..] == [];
    }
  }

  // ---- a pass comes back ---------------------------------------------------------------------

  /** A result that calls for no further pass leaves the environment failed. */
  predicate OverSound(t: Tally) {
    t.over.Some? ==> t.over.value == Errored || (t.over.value == Returned(Never) && t.status.phase == E.EnvPhase.Failed)
  }

  lemma {:induction false} StepsOver(w: Work, t: Tally, need: seq<ComponentSpec>, reply: Replies, timeout: Limit)
    requires OverSound(t)
    ensures OverSound(Steps(w, t, need, reply, timeout))
    decreases |need|
  {
    if need != [] && t.over.None? {
      StepOver(w, t, need[0], reply(need[0].name), timeout);
      hide Step, OverSound;
      StepsOver(w, Step(w, t, need[0], reply(need[0].name), timeout), need[1..], reply, timeout);
    }
  }

  lemma SubmitOver(t: Tally, c: ComponentSpec, o: Submitted)
    requires t.over.None?
    ensures OverSound(AfterSubmit(t, c, o))
  {
    hide Get, Struck, Exhausts, SetPhase;
  }

  lemma ObserveOver(t: Tally, c: ComponentSpec, o: Observed, now: int)
    requires t.over.None?
    ensures OverSound(AfterObserveShared(t, c, o)) && OverSound(AfterObserve(t, c, o, now))
  {
    hide Get, Struck, Exhausts, SetPhase, ResetFailure, SetSince;
  }

  lemma CheckOver(t: Tally, c: ComponentSpec, o: Checked, now: int, timeout: Limit)
    requires t.over.None?
    ensures OverSound(AfterCheck(t, c, o, now, timeout))
  {
    hide Get, Struck, Exhausts, Overdue, SetPhase, ResetFailure;
  }

  lemma StepOver(w: Work, t: Tally, c: ComponentSpec, a: Answer, timeout: Limit)
    requires t.over.None?
    ensures OverSound(Step(w, t, c, a, timeout))
  {
    hide AfterSubmit, AfterObserve, AfterObserveShared, AfterCheck, Adopted;
    match w {
      case Nothing =>
      case Adoption =>
      case Submission => SubmitOver(t, c, a.submitted);
      case Observation => ObserveOver(t, c, a.observed, a.now);
      case Check => CheckOver(t, c, a.checked, a.now, timeout);
    }
  }

  /** A requeue after one second to five minutes, or an error for the queue to retry. */
  predicate ComesBack(o: Outcome) {
    o == Errored || (o.Returned? && o.requeue.After? && SECOND <= o.requeue.wait <= MAX_DEPLOY_BACKOFF)
  }

  predicate EndSound(e: End) {
    e.result.Some? ==>
      ComesBack(e.result.value) || (e.result.value == Returned(Never) && e.status.phase == E.EnvPhase.Failed)
  }

  lemma LoopsComeBack(s: E.Status, need: seq<ComponentSpec>, reply: Replies, timeout: Limit)
    ensures EndSound(SubmitPass(s, need, reply)) && SubmitPass(s, need, reply).result.Some?
    ensures EndSound(ObservePass(s, need, reply))
    ensures EndSound(CheckPass(s, need, reply, timeout)) && CheckPass(s, need, reply, timeout).result.Some?
  {
    var adopted := Steps(Adoption, Blank(s), need, reply, NO_LIMIT);
    var submitted := Steps(Submission, Blank(adopted.status), need, reply, NO_LIMIT);
    var observed := Steps(Observation, Blank(s), need, reply, NO_LIMIT);
    var checked := Steps(Check, Blank(s), need, reply, timeout);
    StepsOver(Submission, Blank(adopted.status), need, reply, NO_LIMIT);
    StepsOver(Observation, Blank(s), need, reply, NO_LIMIT);
    StepsOver(Check, Blank(s), need, reply, timeout);
    RetryComesBack(submitted, need);
    RetryComesBack(observed, need);
    RetryComesBack(checked, need);
    hide Steps, Retry;
  }

  lemma RetryComesBack(t: Tally, need: seq<ComponentSpec>)
    ensures Retry(t, need).Some? && ComesBack(Retry(t, need).value)
  {
    IntendedIsMonotone(0, LargestRetries(t.status.components, need));
  }

  /** No environment is left behind at deploying: unless a step before the levels ended the pass,
      the next one is asked for within five minutes, or the environment is ready, failed or
      terminating. */
  lemma PassComesBack(s: E.Status, p: Pass, levels: Result<Levels, GraphError>)
    requires !p.gate.Halts?
    ensures var e := AfterPass(s, p, levels);
      e.result.Some? && (ComesBack(e.result.value)
        || (e.result.value == Returned(Never)
            && e.status.phase in {E.EnvPhase.Failed, E.EnvPhase.Ready, E.EnvPhase.Terminating}))
  {
    hide PhaseByName, AllReady, TooLong, FirstPending, SubmitPass, ObservePass, CheckPass, Select;
    var s0 := Generation(s, p.reset);
    if p.gate.Opens? && levels.Ok? {
      var phases := PhaseByName(s0.components);
      var first := FirstPending(levels.value, phases);
      if first < |levels.value| {
        var level := levels.value[first];
        var s1 := EnterDeploying(s0, true);
        var watched := Select(level, phases, Observation);
        LoopsComeBack(s1, Select(level, phases, Submission), p.reply, p.gate.timeout);
        LoopsComeBack(s1, watched, p.reply, p.gate.timeout);
        LoopsComeBack(s1, Select(level, phases, Check), p.reply, p.gate.timeout);
        LoopsComeBack(ObservePass(s1, watched, p.reply).status, Select(level, phases, Check), p.reply, p.gate.timeout);
      }
    }
  }
}
