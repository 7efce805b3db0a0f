/** When an environment is ready, and when it has failed: in every pass, and over every run. */
module EnvironmentPhase {
  import opened Wrappers
  import opened Template
  import opened DependencyGraph
  import opened Kahn
  import opened ComponentStatus
  import E = Environment
  import opened Deploy
  import opened DeployMoves
  import opened DeployLoops
  import opened DeployOutcomes
  import opened Reconcile
  import opened DeployRuns
  import opened DeployOrder

  // ---- the levels and the template -------------------------------------------------------------

  /** Every component is on record as ready. */
  ghost predicate AllUp(entries: seq<Entry>, cs: seq<ComponentSpec>) {
    forall c | c in cs :: Get(entries, c.name).phase == Ready
  }

  lemma AllUpIsAllReady(entries: seq<Entry>, cs: seq<ComponentSpec>)
    requires UniqueEntries(entries)
    ensures AllUp(entries, cs) <==> AllReady(cs, PhaseByName(entries))
  {
    hide PhaseByName, Get, Has, UniqueEntries;
    forall c | c in cs
      ensures Get(entries, c.name).phase == Ready <==>
                c.name in PhaseByName(entries) && PhaseByName(entries)[c.name] == Ready
    {
      PhaseByNameIsGet(entries, c.name);
      NewIsPending(entries, c.name);
    }
  }

  lemma LevelsReady(cs: seq<ComponentSpec>, levels: Levels, phases: map<string, ComponentPhase>)
    requires ExactLevels(cs, levels)
    ensures FirstPending(levels, phases) == |levels| <==> AllReady(cs, phases)
  {
    hide Longest, UniqueNames;
    var first := FirstPending(levels, phases);
    if first == |levels| {
      forall c | c in cs ensures c.name in phases && phases[c.name] == Ready {
        var l, i :| 0 <= l < |levels| && 0 <= i < |levels[l]| && levels[l][i] == c;
        assert AllReady(levels[l], phases) && levels[l][i] in levels[l];
      }
    } else {
      var c :| c in levels[first] && !(c.name in phases && phases[c.name] == Ready);
      var i :| 0 <= i < |levels[first]| && levels[first][i] == c;
      assert c in cs;
    }
  }

  // ---- one pass over a level ---------------------------------------------------------------------

  /** Two loops, no component moved by both. */
  ghost predicate Disjointly(cs: seq<Entry>, mid: seq<Entry>, cs': seq<Entry>) {
    forall n :: Get(mid, n) == Get(cs, n) || Get(cs', n) == Get(mid, n)
  }

  lemma FailedTwice(cs: seq<Entry>, mid: seq<Entry>, cs': seq<Entry>)
    requires Disjointly(cs, mid, cs')
    ensures NewlyFailed(cs, cs') <==> NewlyFailed(cs, mid) || NewlyFailed(mid, cs')
  {
    hide Get;
    if NewlyFailed(cs, cs') {
      var n :| FailsNow(Get(cs, n), Get(cs', n));
      assert FailsNow(Get(cs, n), Get(mid, n)) || FailsNow(Get(mid, n), Get(cs', n));
    }
    if NewlyFailed(cs, mid) {
      var n :| FailsNow(Get(cs, n), Get(mid, n));
      assert FailsNow(Get(cs, n), Get(cs', n));
    }
    if NewlyFailed(mid, cs') {
      var n :| FailsNow(Get(mid, n), Get(cs', n));
      assert FailsNow(Get(cs, n), Get(cs', n));
    }
  }

  /** The environment failed with somebody who had not failed before. */
  ghost predicate FailsWithOne(s: E.Status, s': E.Status) {
    s'.phase == E.EnvPhase.Failed <==> s.phase == E.EnvPhase.Failed || NewlyFailed(s.components, s'.components)
  }

  lemma WatchFails(w: Work, s: E.Status, need: seq<ComponentSpec>, reply: Replies, timeout: Limit)
    requires w == Observation || w == Check
    requires AllSound(s.components) && UniqueNames(need) && AllFit(w, s.components, need, reply)
    ensures FailsWithOne(s, Steps(w, Blank(s), need, reply, timeout).status)
  {
    hide Steps, AllFit, UniqueNames, AllSound, NewlyFailed;
    StepsEnd(w, Blank(s), need, reply, timeout);
    ExhaustedMeansFailed(w, Blank(s), need, reply, timeout);
  }

  lemma SubmitFails(s: E.Status, need: seq<ComponentSpec>, reply: Replies)
    requires AllSound(s.components) && UniqueNames(need) && AllFit(Adoption, s.components, need, reply)
    ensures s.phase != E.EnvPhase.Failed ==> FailsWithOne(s, SubmitPass(s, need, reply).status)
  {
    hide Steps, AllFit, UniqueNames, AllSound, NewlyFailed, Moved, Disjointly, Progress;
    var mid := Steps(Adoption, Blank(s), need, reply, NO_LIMIT).status;
    var t := Steps(Submission, Blank(mid), need, reply, NO_LIMIT);
    LoopProgress(Adoption, s, need, reply, NO_LIMIT, NO_LIMIT);
    AdoptionOnlyAdopts(Blank(s), need, reply);
    AdoptedThenFits(s.components, mid.components, need, reply);
    ProgressIsSound(s, mid, reply, NO_LIMIT);
    StepsEnd(Adoption, Blank(s), need, reply, NO_LIMIT);
    StepsEnd(Submission, Blank(mid), need, reply, NO_LIMIT);
    StepsMove(Submission, Blank(mid), need, reply, NO_LIMIT);
    QuitMeansFailed(Blank(mid), need, reply);
    SubmittedDisjointly(s.components, mid.components, t.status.components, need, reply);
    FailedTwice(s.components, mid.components, t.status.components);
  }

  lemma SubmittedDisjointly(cs: seq<Entry>, mid: seq<Entry>, cs': seq<Entry>, need: seq<ComponentSpec>, reply: Replies)
    requires UniqueNames(need)
    requires Moved(Adoption, cs, mid, need, reply, NO_LIMIT) && Moved(Submission, mid, cs', need, reply, NO_LIMIT)
    ensures Disjointly(cs, mid, cs')
  {
    hide Get, Moved, UniqueNames;
    forall n ensures Get(mid, n) == Get(cs, n) || Get(cs', n) == Get(mid, n) {
      AdoptedOrSubmitted(cs, mid, cs', need, reply, n);
    }
  }

  lemma ObserveCheckFails(s: E.Status, level: seq<ComponentSpec>, reply: Replies, timeout: Limit)
    requires AllSound(s.components) && UniqueNames(level)
    ensures var phases := PhaseByName(s.components);
      var watched, checked := Select(level, phases, Observation), Select(level, phases, Check);
      var mid := ObservePass(s, watched, reply).status;
      && FailsWithOne(s, mid)
      && FailsWithOne(s, CheckPass(mid, checked, reply, timeout).status)
      && FailsWithOne(s, CheckPass(s, checked, reply, timeout).status)
  {
    hide Steps, Get, Has, Touched, AllFit, UniqueNames, Progress, Moved, Select, PhaseByName, Sound, NewlyFailed;
    hide Disjointly;
    var phases := PhaseByName(s.components);
    var watched, checked := Select(level, phases, Observation), Select(level, phases, Check);
    var mid := Steps(Observation, Blank(s), watched, reply, NO_LIMIT).status;
    SelectUnique(level, phases, Observation);
    SelectUnique(level, phases, Check);
    SelectedFit(s.components, level, Observation, reply);
    SelectedFit(s.components, level, Check, reply);
    WatchFails(Observation, s, watched, reply, NO_LIMIT);
    WatchFails(Check, s, checked, reply, timeout);
    WatchProgress(Observation, s, watched, reply, NO_LIMIT, NO_LIMIT);
    ProgressIsSound(s, mid, reply, NO_LIMIT);
    WatchedStillFit(s.components, mid.components, level, reply);
    WatchFails(Check, mid, checked, reply, timeout);
    var s' := Steps(Check, Blank(mid), checked, reply, timeout).status;
    StepsMove(Check, Blank(mid), checked, reply, timeout);
    WatchedDisjointly(s.components, mid.components, s'.components, level, reply, timeout);
    FailedTwice(s.components, mid.components, s'.components);
  }

  lemma WatchedDisjointly(cs: seq<Entry>, mid: seq<Entry>, cs': seq<Entry>, level: seq<ComponentSpec>,
        reply: Replies, timeout: Limit)
    requires Moved(Observation, cs, mid, Select(level, PhaseByName(cs), Observation), reply, NO_LIMIT)
    requires Moved(Check, mid, cs', Select(level, PhaseByName(cs), Check), reply, timeout)
    ensures Disjointly(cs, mid, cs')
  {
    hide Get, Select, PhaseByName, Moved;
    forall n ensures Get(mid, n) == Get(cs, n) || Get(cs', n) == Get(mid, n) {
      OneOrTheOther(cs, mid, cs', level, reply, timeout, n);
    }
  }

  lemma LevelFails(s: E.Status, level: seq<ComponentSpec>, fetched: bool, reply: Replies, timeout: Limit)
    requires AllSound(s.components) && UniqueNames(level) && s.phase != E.EnvPhase.Failed
    ensures FailsWithOne(s, LevelPass(s, level, PhaseByName(s.components), fetched, reply, timeout).status)
  {
    hide Select, PhaseByName, UniqueNames, NewlyFailed, AllFit, AllSound, SubmitPass, ObservePass, CheckPass;
    var phases := PhaseByName(s.components);
    NobodyFails(s.components);
    SelectUnique(level, phases, Submission);
    assert UniqueEntries(s.components) by { SoundEntries(s.components); }
    SelectedFit(s.components, level, Submission, reply);
    SubmitFails(s, Select(level, phases, Submission), reply);
    ObserveCheckFails(s, level, reply, timeout);
  }

  // ---- one pass -----------------------------------------------------------------------------------

  /** The template can be deployed under these names. */
  ghost predicate Deployable(p: Pass) {
    p.gate.Opens? ==>
      var cs := p.gate.components;
      && UniqueNames(cs) && KnownDependencies(cs) && Acyclic(cs)
      && !exists c | c in cs :: TooLong(p.envName, c)
  }

  /** What the phase of the environment is after a pass, s being the status it was read with. */
  ghost predicate PhaseIsDue(s: E.Status, s': E.Status, p: Pass) {
    match p.gate
    case Halts(_) => s' == s
    case Fails(reason) => s' == FailWith(s, reason)
    case Expires => s' == s.(phase := E.EnvPhase.Terminating)
    case Opens(cs, _) =>
      if !Deployable(p) then s' == FailWith(s, "InvalidConfiguration")
      else if s.phase == E.EnvPhase.Failed then s' == s
      else
        && (s'.phase == E.EnvPhase.Ready <==> AllUp(s.components, cs))
        && (s'.phase == E.EnvPhase.Failed <==> NewlyFailed(s.components, s'.components))
        && s'.phase in {E.EnvPhase.Ready, E.EnvPhase.Failed, E.EnvPhase.Deploying}
        && (AllUp(s.components, cs) ==> s'.components == s.components)
  }

  lemma OpenIsDue(s: E.Status, p: Pass, levels: Levels)
    requires p.gate.Opens? && s.phase != E.EnvPhase.Failed && AllSound(s.components)
    requires ExactLevels(p.gate.components, levels) && Deployable(p)
    ensures PhaseIsDue(s, Open(s, p, levels).status, p)
  {
    hide UniqueNames, Progress, LevelPass, AllSound, PhaseByName, AllReady, AllUp, ExactLevels, NewlyFailed;
    hide KnownDependencies, Acyclic, TooLong;
    var phases := PhaseByName(s.components);
    var first := FirstPending(levels, phases);
    LevelsReady(p.gate.components, levels, phases);
    SoundEntries(s.components);
    AllUpIsAllReady(s.components, p.gate.components);
    NobodyFails(s.components);
    if first < |levels| {
      var s1 := EnterDeploying(s, true);
      LevelsUnique(p, levels);
      LevelProgress(s1, levels[first], p.fetched, p.reply, p.gate.timeout);
      LevelFails(s1, levels[first], p.fetched, p.reply, p.gate.timeout);
      DeployingOrFailed(s1, LevelPass(s1, levels[first], phases, p.fetched, p.reply, p.gate.timeout).status, p);
    }
  }

  lemma DeployingOrFailed(s: E.Status, s': E.Status, p: Pass)
    requires p.gate.Opens? && Progress(s, s', p.reply, p.gate.timeout)
    ensures s'.phase in {s.phase, E.EnvPhase.Failed}
  {
  }

  lemma DeployableIsBuilt(p: Pass, levels: Result<Levels, GraphError>)
    requires p.gate.Opens? && Answers(p, levels)
    ensures Deployable(p) <==> levels.Ok? && !exists c | c in p.gate.components :: TooLong(p.envName, c)
  {
    hide UniqueNames, KnownDependencies, Acyclic, ExactLevels, TooLong;
  }

  /** The phase after every pass: among the passes that open over a template that can be deployed,
      and that find the environment not failed, ready comes exactly when every component of the
      template is on record as ready, and failed exactly when a component fails in this pass. */
  lemma PhaseOfPass(s: E.Status, p: Pass, levels: Result<Levels, GraphError>)
    requires Answers(p, levels) && (p.reset || AllSound(s.components))
    ensures PhaseIsDue(Generation(s, p.reset), AfterPass(s, p, levels).status, p)
  {
    hide Deployable, Open, AllSound, AllUp, NewlyFailed, TooLong, Answers, UniqueNames;
    var s0 := Generation(s, p.reset);
    assert AllSound(s0.components) by { NoneIsSound(); }
    if p.gate.Opens? {
      DeployableIsBuilt(p, levels);
      if Deployable(p) && s0.phase != E.EnvPhase.Failed {
        AnswerIsExact(p, levels);
        hide PhaseIsDue;
        OpenIsDue(s0, p, levels.value);
      }
    }
  }

  /** A pass that has no work to do asks for no other: one that ends before the levels by itself, finds the
      environment failed, or finds every component ready. */
  lemma QuietPassIsLast(s: E.Status, p: Pass, levels: Result<Levels, GraphError>)
    requires Answers(p, levels) && (p.reset || AllSound(s.components))
    ensures var s0, r := Generation(s, p.reset), AfterPass(s, p, levels).result;
      match p.gate
      case Halts(result) => r == Some(result)
      case Fails(_) => r == Some(Returned(Never))
      case Expires => r == Some(Returned(Never))
      case Opens(cs, _) =>
        !Deployable(p) || s0.phase == E.EnvPhase.Failed || AllUp(s0.components, cs) ==> r == Some(Returned(Never))
  {
    hide Deployable, AllSound, AllUp, TooLong, Answers, UniqueNames, AllReady, PhaseByName, ExactLevels, LevelPass;
    var s0 := Generation(s, p.reset);
    assert AllSound(s0.components) by { NoneIsSound(); }
    SoundEntries(s0.components);
    if p.gate.Opens? {
      DeployableIsBuilt(p, levels);
      if levels.Ok? {
        AnswerIsExact(p, levels);
        LevelsReady(p.gate.components, levels.value, PhaseByName(s0.components));
        AllUpIsAllReady(s0.components, p.gate.components);
      }
    }
  }

  /** A new generation of the spec starts from nothing, whatever was on record, a failure included. */
  lemma GenerationStartsOver(s: E.Status, p: Pass, levels: Result<Levels, GraphError>)
    requires p.reset
    ensures AfterPass(s, p, levels) == AfterPass(E.Status(E.EnvPhase.Unset, [], s.reason), p.(reset := false), levels)
  {
    hide Open, TooLong;
    OpenIgnoresReset(E.Status(E.EnvPhase.Unset, [], s.reason), p, levels);
  }

  lemma OpenIgnoresReset(s: E.Status, p: Pass, levels: Result<Levels, GraphError>)
    ensures p.gate.Opens? && levels.Ok? ==> Open(s, p, levels.value) == Open(s, p.(reset := false), levels.value)
  {
    hide LevelPass, AllReady, PhaseByName;
  }

  lemma NoneIsSound()
    ensures AllSound([])
  {
  }

  lemma AnswerIsExact(p: Pass, levels: Result<Levels, GraphError>)
    requires p.gate.Opens? && Answers(p, levels) && levels.Ok?
    ensures ExactLevels(p.gate.components, levels.value)
  {
  }

  // ---- runs ---------------------------------------------------------------------------------------

  /** The turns that take a ready environment back. */
  ghost predicate Breaks(t: Turn) {
    t.persisted && (t.pass.gate.Expires? || t.pass.gate.Fails? || !Deployable(t.pass))
  }

  ghost predicate NeverBreaks(run: seq<Turn>) {
    forall t | t in run :: !Breaks(t)
  }

  predicate Opened(t: Turn) {
    t.persisted && t.pass.gate.Opens?
  }

  ghost predicate UpWhenReady(cs: seq<ComponentSpec>, s: E.Status) {
    s.phase == E.EnvPhase.Ready ==> AllUp(s.components, cs)
  }

  /** One turn of a run: readiness is reported of components that are ready, and they stay so. */
  lemma TurnOfPhase(cs: seq<ComponentSpec>, s: E.Status, t: Turn)
    requires AllSound(s.components) && Fixed(cs, [t])
    ensures AllSound(Next(s, t).components)
    ensures UpWhenReady(cs, s) ==> UpWhenReady(cs, Next(s, t))
    ensures AllUp(s.components, cs) ==> AllUp(Next(s, t).components, cs)
    ensures AllUp(s.components, cs) && s.phase != E.EnvPhase.Failed && !Breaks(t) ==>
              Next(s, t).phase == if Opened(t) then E.EnvPhase.Ready else s.phase
    ensures Breaks(t) ==> Next(s, t).phase in {E.EnvPhase.Failed, E.EnvPhase.Terminating}
  {
    hide AfterPass, AllSound, Get, Answers, Spent, SpentMeansFailed, NewlyFailed, UniqueNames, TooLong;
    assert t in [t];
    TurnIsLawful(s, t);
    PhaseOfPass(s, t.pass, t.levels);
  }

  lemma FixedTurns(cs: seq<ComponentSpec>, run: seq<Turn>)
    requires Fixed(cs, run) && run != []
    ensures Fixed(cs, [run[0]]) && Fixed(cs, run[1..])
    ensures NeverBreaks(run) <==> !Breaks(run[0]) && NeverBreaks(run[1..])
  {
    hide Answers, Breaks;
    assert run[0] in run && run == [run[0]] + run[1..];
  }

  /** Over every run with one template: an environment that is reported ready has all its components
      ready. */
  lemma {:induction false} ReadyMeansUp(cs: seq<ComponentSpec>, s: E.Status, run: seq<Turn>)
    requires AllSound(s.components) && Fixed(cs, run) && UpWhenReady(cs, s)
    ensures UpWhenReady(cs, Run(s, run))
    decreases |run|
  {
    hide Fixed, AllSound, UpWhenReady, AllUp, Next, Breaks;
    if run != [] {
      FixedTurns(cs, run);
      TurnOfPhase(cs, s, run[0]);
      ReadyMeansUp(cs, Next(s, run[0]), run[1..]);
    }
  }

  /** And once all are ready, it is reported with the first pass that opens, and from then on. */
  lemma {:induction false} UpGetsReady(cs: seq<ComponentSpec>, s: E.Status, run: seq<Turn>)
    requires AllSound(s.components) && Fixed(cs, run) && NeverBreaks(run)
    requires AllUp(s.components, cs) && s.phase != E.EnvPhase.Failed
    ensures Run(s, run).phase == E.EnvPhase.Ready <==>
              s.phase == E.EnvPhase.Ready || exists t | t in run :: Opened(t)
    decreases |run|
  {
    hide Fixed, AllSound, AllUp, Next, Breaks, NeverBreaks, Opened;
    if run != [] {
      FixedTurns(cs, run);
      TurnOfPhase(cs, s, run[0]);
      UpGetsReady(cs, Next(s, run[0]), run[1..]);
      assert run[0] in run && forall t | t in run :: t == run[0] || t in run[1..];
      assert forall t | t in run[1..] :: t in run;
    }
  }

  ghost predicate ReadyThroughout(s: E.Status, run: seq<Turn>)
    decreases |run|
  {
    s.phase == E.EnvPhase.Ready && (run == [] || ReadyThroughout(Next(s, run[0]), run[1..]))
  }

  /** A ready environment is ready all along a run exactly when no persisted pass finds it expired,
      finds a failure before the levels, or finds a template that cannot be deployed. */
  lemma {:induction false} ReadyStaysExactlyWhen(cs: seq<ComponentSpec>, s: E.Status, run: seq<Turn>)
    requires AllSound(s.components) && Fixed(cs, run)
    requires AllUp(s.components, cs) && s.phase == E.EnvPhase.Ready
    ensures ReadyThroughout(s, run) <==> NeverBreaks(run)
    decreases |run|
  {
    hide Fixed, AllSound, AllUp, Next, Breaks, NeverBreaks, Opened;
    if run == [] {
      NothingBreaks();
    } else {
      FixedTurns(cs, run);
      TurnOfPhase(cs, s, run[0]);
      if Breaks(run[0]) {
        assert !ReadyThroughout(Next(s, run[0]), run[1..]);
      } else {
        ReadyStaysExactlyWhen(cs, Next(s, run[0]), run[1..]);
      }
    }
  }

  lemma NothingBreaks()
    ensures NeverBreaks([])
  {
  }
}
