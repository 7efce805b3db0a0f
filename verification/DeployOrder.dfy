/** Deployment follows the dependency order: in every pass, and over every run. */
module DeployOrder {
  import opened Wrappers
  import opened Template
  import opened DependencyGraph
  import opened Kahn
  import opened ComponentStatus
  import E = Environment
  import opened Deploy
  import opened DeployMoves
  import opened DeployLoops
  import opened Reconcile
  import opened DeployRuns

  lemma NeededIsListed(cs: seq<ComponentSpec>, x: string, y: string) returns (c: ComponentSpec)
    requires Needs(cs, x, y)
    ensures c in cs && c.name == y
  {
    var p :| ChainFrom(cs, x, p) && |p| > 1 && p[|p| - 1] == y;
    assert p[|p| - 1] in Names(cs);
    var i :| 0 <= i < |cs| && cs[i].name == y;
    c := cs[i];
  }

  /** What a component of the first pending level needs is in a level before, and ready. */
  lemma NeededIsReady(cs: seq<ComponentSpec>, levels: Levels, phases: map<string, ComponentPhase>, first: nat,
        c: ComponentSpec, y: string)
    requires ExactLevels(cs, levels) && first < |levels| && c in levels[first]
    requires forall k | 0 <= k < first :: AllReady(levels[k], phases)
    requires Needs(cs, c.name, y)
    ensures y in phases && phases[y] == Ready
  {
    hide Longest, Needs, UniqueNames;
    var i :| 0 <= i < |levels[first]| && levels[first][i] == c;
    assert Longest(cs, levels[first][i].name, first);
    var d := NeededIsListed(cs, c.name, y);
    var l, j :| 0 <= l < |levels| && 0 <= j < |levels[l]| && levels[l][j] == d;
    assert Longest(cs, levels[l][j].name, l);
    NeedsDescends(cs, c.name, y, first, l);
    assert AllReady(levels[l], phases);
    assert levels[l][j] in levels[l];
  }

  /** Whenever a component is handed to submitDeploys, everything it needs, directly or
      through others, is ready in the status of that pass. */
  lemma HandedNeedsReady(s: E.Status, p: Pass, levels: Result<Levels, GraphError>, c: ComponentSpec, y: string)
    requires UniqueEntries(s.components) && Answers(p, levels)
    requires c in Handed(s, p, levels) && Needs(p.gate.components, c.name, y)
    ensures !p.reset && Has(s.components, y) && Get(s.components, y).phase == Ready
  {
    hide Longest, Needs, UniqueNames, KnownDependencies, Acyclic, ExactLevels, AllReady, PhaseByName, Select;
    hide UniqueEntries;
    var s0 := Generation(s, p.reset);
    var phases := PhaseByName(s0.components);
    var first := FirstPending(levels.value, phases);
    SelectIsExact(levels.value[first], phases, Submission, c);
    NeededIsReady(p.gate.components, levels.value, phases, first, c, y);
    assert PhaseByName([]) == map[] by { NoPhases(); }
    PhaseByNameIsGet(s.components, y);
  }

  lemma NoPhases()
    ensures PhaseByName([]) == map[]
  {
  }

  function NamesOf(cs: seq<ComponentSpec>): seq<string> {
    seq(|cs|, i requires 0 <= i < |cs| => cs[i].name)
  }

  /** The names handed to submitDeploys over a run, in order. */
  function History(s: E.Status, run: seq<Turn>): seq<string>
    decreases |run|
  {
    if run == [] then []
    else NamesOf(Handed(s, run[0].pass, run[0].levels)) + History(Next(s, run[0]), run[1..])
  }

  /** Whatever is needed by an element is an element before it. */
  ghost predicate Extends(cs: seq<ComponentSpec>, names: seq<string>) {
    forall i, y | 0 <= i < |names| && Needs(cs, names[i], y) :: y in names[..i]
  }

  /** Only who was handed out has a status. */
  ghost predicate OnlyHanded(s: E.Status, past: seq<string>) {
    forall n :: Has(s.components, n) ==> n in past
  }

  ghost predicate Fixed(cs: seq<ComponentSpec>, run: seq<Turn>) {
    Honest(run) && forall t | t in run :: t.pass.gate.Opens? ==> t.pass.gate.components == cs
  }

  lemma ExtendsByLevel(cs: seq<ComponentSpec>, past: seq<string>, more: seq<string>)
    requires Extends(cs, past)
    requires forall x, y | x in more && Needs(cs, x, y) :: y in past
    ensures Extends(cs, past + more)
  {
    hide Needs;
    var all := past + more;
    forall i, y | 0 <= i < |all| && Needs(cs, all[i], y) ensures y in all[..i] {
      if i < |past| {
        assert all[..i] == past[..i];
      } else {
        assert all[i] in more && past <= all[..i];
        assert all[..i] == past + all[|past|..i];
      }
    }
  }

  lemma HandedExtends(cs: seq<ComponentSpec>, past: seq<string>, s: E.Status, t: Turn)
    requires UniqueEntries(s.components) && OnlyHanded(s, past) && Extends(cs, past)
    requires Answers(t.pass, t.levels) && !t.pass.reset && (t.pass.gate.Opens? ==> t.pass.gate.components == cs)
    ensures Extends(cs, past + NamesOf(Handed(s, t.pass, t.levels)))
  {
    hide Needs, Extends, UniqueEntries, Has, Answers, Handed;
    var handed := Handed(s, t.pass, t.levels);
    forall x, y | x in NamesOf(handed) && Needs(cs, x, y) ensures y in past {
      var i :| 0 <= i < |handed| && handed[i].name == x;
      assert handed[i] in handed && t.pass.gate.Opens? by { NothingUnlessOpen(s, t, handed); }
      HandedNeedsReady(s, t.pass, t.levels, handed[i], y);
    }
    ExtendsByLevel(cs, past, NamesOf(handed));
  }

  lemma NothingUnlessOpen(s: E.Status, t: Turn, handed: seq<ComponentSpec>)
    requires handed == Handed(s, t.pass, t.levels)
    ensures handed != [] ==> t.pass.gate.Opens?
  {
  }

  // ---- a status comes from being handed out ---------------------------------------------

  lemma SelectedNames(cs: seq<Entry>, level: seq<ComponentSpec>, w: Work, n: string)
    requires UniqueEntries(cs) && w in {Observation, Check} && n in Names(Select(level, PhaseByName(cs), w))
    ensures Has(cs, n)
  {
    hide Get, Has, Select, PhaseByName, UniqueEntries;
    var need := Select(level, PhaseByName(cs), w);
    var i :| 0 <= i < |need| && need[i].name == n;
    assert need[i] in need;
    SelectIsExact(level, PhaseByName(cs), w, need[i]);
    PhaseByNameIsGet(cs, n);
  }

  lemma WatchAddsNobody(w: Work, cs: seq<Entry>, t: Tally, level: seq<ComponentSpec>, reply: Replies, timeout: Limit)
    requires UniqueEntries(cs) && UniqueNames(level) && w in {Observation, Check}
    ensures var need := Select(level, PhaseByName(cs), w);
      forall n :: Has(Steps(w, t, need, reply, timeout).status.components, n) ==>
          Has(t.status.components, n) || Has(cs, n)
  {
    hide Get, Has, Select, PhaseByName, UniqueEntries, UniqueNames, Steps, Touched;
    var need := Select(level, PhaseByName(cs), w);
    SelectUnique(level, PhaseByName(cs), w);
    StepsMove(w, t, need, reply, timeout);
    forall n | n in Names(need) ensures Has(cs, n) { SelectedNames(cs, level, w, n); }
  }

  lemma LevelAddsHanded(s: E.Status, level: seq<ComponentSpec>, fetched: bool, reply: Replies, timeout: Limit,
          n: string)
    requires AllSound(s.components) && UniqueNames(level)
    requires Has(LevelPass(s, level, PhaseByName(s.components), fetched, reply, timeout).status.components, n)
    ensures Has(s.components, n) || (fetched && n in Names(Select(level, PhaseByName(s.components), Submission)))
  {
    hide Get, Has, Select, PhaseByName, UniqueNames, Steps, SubmitPass, Sound, Progress, UniqueEntries, AllFit;
    var phases := PhaseByName(s.components);
    var need, watched, checked := Select(level, phases, Submission), Select(level, phases, Observation),
        Select(level, phases, Check);
    assert UniqueEntries(s.components);
    SelectUnique(level, phases, Submission);
    SelectedFit(s.components, level, Submission, reply);
    SubmitProgress(s, need, reply, timeout);
    WatchAddsNobody(Observation, s.components, Blank(s), level, reply, NO_LIMIT);
    WatchAddsNobody(Check, s.components, Blank(s), level, reply, timeout);
    WatchAddsNobody(Check, s.components, Blank(ObservePass(s, watched, reply).status), level, reply, timeout);
  }

  lemma NamesOfNames(cs: seq<ComponentSpec>, n: string)
    requires n in Names(cs)
    ensures n in NamesOf(cs)
  {
    var i :| 0 <= i < |cs| && cs[i].name == n;
    assert NamesOf(cs)[i] == n;
  }

  lemma PassAddsHanded(s: E.Status, t: Turn, n: string)
    requires AllSound(s.components) && Answers(t.pass, t.levels) && !t.pass.reset
    requires Has(AfterPass(s, t.pass, t.levels).status.components, n)
    ensures Has(s.components, n) || n in NamesOf(Handed(s, t.pass, t.levels))
  {
    hide Get, Has, Select, PhaseByName, UniqueNames, KnownDependencies, Acyclic, ExactLevels, LevelPass, Sound;
    hide TooLong, AllReady, NamesOf;
    var p := t.pass;
    if p.gate.Opens? && t.levels.Ok? && s.phase != E.EnvPhase.Failed
        && !exists c | c in p.gate.components :: TooLong(p.envName, c) {
      var levels := t.levels.value;
      var phases := PhaseByName(s.components);
      var first := FirstPending(levels, phases);
      LevelsUnique(p, levels);
      if first < |levels| && !Has(s.components, n) {
        LevelAddsHanded(EnterDeploying(s, true), levels[first], p.fetched, p.reply, p.gate.timeout, n);
        NamesOfNames(Select(levels[first], phases, Submission), n);
      }
    }
  }

  lemma {:induction false} HistoryExtends(cs: seq<ComponentSpec>, past: seq<string>, s: E.Status, run: seq<Turn>)
    requires AllSound(s.components) && Fixed(cs, run) && OnlyHanded(s, past) && Extends(cs, past)
    ensures Extends(cs, past + History(s, run))
    decreases |run|
  {
    hide AfterPass, Has, Sound, Answers, Handed, Extends, UniqueEntries, NamesOf;
    if run == [] {
      assert past + History(s, run) == past;
    } else {
      var t := run[0];
      var handed := NamesOf(Handed(s, t.pass, t.levels));
      assert t in run;
      HandedExtends(cs, past, s, t);
      PassIsLawful(s, t.pass, t.levels);
      LawfulStays(s, AfterPass(s, t.pass, t.levels).status, t.pass);
      var s' := Next(s, t);
      forall n | Has(s'.components, n) ensures n in past + handed {
        if t.persisted { PassAddsHanded(s, t, n); }
      }
      HistoryExtends(cs, past + handed, s', run[1..]);
      assert past + History(s, run) == (past + handed) + History(s', run[1..]);
    }
  }

  /** With a fixed template, everything is first submitted after all that it needs was: the
      submissions of a whole run extend the dependency order. */
  lemma SubmissionsFollowTheOrder(cs: seq<ComponentSpec>, reason: string, run: seq<Turn>)
    requires Fixed(cs, run)
    ensures Extends(cs, History(E.Status(E.EnvPhase.Unset, [], reason), run))
  {
    var s := E.Status(E.EnvPhase.Unset, [], reason);
    assert forall n :: !Has(s.components, n);
    HistoryExtends(cs, [], s, run);
    assert [] + History(s, run) == History(s, run);
  }
}
