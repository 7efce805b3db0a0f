/** A deployment gets ready: what a pass does of it, and how many passes it takes. */
module DeployProgress {
  import opened Wrappers
  import opened Template
  import opened DependencyGraph
  import opened Kahn
  import opened ComponentStatus
  import E = Environment
  import opened Deploy
  import opened DeployMoves
  import opened DeployLoops
  import opened DeployOutcomes
  import opened LevelOutcomes
  import opened Reconcile
  import opened DeployRuns
  import opened EnvironmentPhase
  import opened DeployWaits
  import opened DeployReasons

  // ---- a pass works on the first level that is not ready --------------------------------------------

  lemma PassIsLevel(s: E.Status, p: Pass, levels: Levels) returns (l: nat)
    requires p.gate.Opens? && Answers(p, Ok(levels)) && Deployable(p)
    requires AllSound(s.components) && s.phase != E.EnvPhase.Failed && !p.reset
    requires !AllUp(s.components, p.gate.components)
    ensures l < |levels| && UniqueNames(levels[l])
    ensures forall i | 0 <= i < l :: AllUp(s.components, levels[i])
    ensures !AllUp(s.components, levels[l])
    ensures AfterPass(s, p, Ok(levels)) ==
            LevelPass(s.(phase := E.EnvPhase.Deploying), levels[l], PhaseByName(s.components), p.fetched, p.reply,
                      p.gate.timeout)
  {
    hide UniqueNames, KnownDependencies, Acyclic, TooLong, PhaseByName, AllReady, AllUp, ExactLevels, LevelPass;
    hide AllSound;
    var phases := PhaseByName(s.components);
    SoundEntries(s.components);
    AnswerIsExact(p, Ok(levels));
    LevelsUnique(p, levels);
    LevelsReady(p.gate.components, levels, phases);
    AllUpIsAllReady(s.components, p.gate.components);
    l := FirstPending(levels, phases);
    forall i | 0 <= i < |levels| ensures AllUp(s.components, levels[i]) <==> AllReady(levels[i], phases) {
      AllUpIsAllReady(s.components, levels[i]);
    }
  }

  /** A pass that opens on an environment that has neither failed nor got ready moves who is due in the
      first level that is not ready, as the answers say, waits as long as they ask for, and reports why
      it fails. */
  lemma PassMoves(s: E.Status, p: Pass, levels: Levels) returns (l: nat, k: nat, j: nat, w: Work, n: nat)
    requires p.gate.Opens? && Answers(p, Ok(levels)) && Deployable(p)
    requires AllSound(s.components) && s.phase != E.EnvPhase.Failed && !p.reset
    requires !AllUp(s.components, p.gate.components)
    ensures l < |levels| && !AllUp(s.components, levels[l])
    ensures forall i | 0 <= i < l :: AllUp(s.components, levels[i])
    ensures var e := AfterPass(s, p, Ok(levels));
      && MovesDue(k, j, s.components, e.status.components, levels[l], p.fetched, p.reply, p.gate.timeout)
      && Reported(s, e.status, levels[l], p.reply)
      && (!NewlyFailed(s.components, e.status.components) ==>
            WaitsDue(w, n, s.components, e.status.components, e.result, levels[l], p.fetched, p.reply, p.gate.timeout))
  {
    hide UniqueNames, AllUp, Deployable, Answers, LevelPass, AfterPass, AllSound, MovesDue, WaitsDue, PhaseByName;
    hide NewlyFailed, BlamedInLevel;
    l := PassIsLevel(s, p, levels);
    var s1 := s.(phase := E.EnvPhase.Deploying);
    k, j := LevelMoves(s1, levels[l], p.fetched, p.reply, p.gate.timeout);
    w, n := LevelWaits(s1, levels[l], p.fetched, p.reply, p.gate.timeout);
    LevelReports(s1, levels[l], p.fetched, p.reply, p.gate.timeout);
  }

  // ---- how far a level is -----------------------------------------------------------------------------

  ghost predicate Any(entries: seq<Entry>, level: seq<ComponentSpec>, phase: ComponentPhase) {
    exists c | c in level :: Get(entries, c.name).phase == phase
  }

  ghost function Stage(entries: seq<Entry>, level: seq<ComponentSpec>): nat {
    if Any(entries, level, Pending) then 3
    else if Any(entries, level, Submitting) then 2
    else if Any(entries, level, Deploying) then 1
    else 0
  }

  /** Nobody gave up. */
  ghost predicate NoneFailed(entries: seq<Entry>, cs: seq<ComponentSpec>) {
    forall c | c in cs :: Get(entries, c.name).phase != Failed
  }

  /** Every call for the component would be answered as one hopes. */
  predicate Obliges(e: Entry, a: Answer, timeout: Limit) {
    a.submitted.Accepted? && a.observed.JobSucceeded? && a.checked.IsReady? && !Overdue(e, a.now, timeout)
  }

  ghost predicate AllOblige(entries: seq<Entry>, level: seq<ComponentSpec>, reply: Replies, timeout: Limit) {
    forall c | c in level :: Obliges(Get(entries, c.name), reply(c.name), timeout)
  }

  /** What good answers make of a component. */
  lemma ObligedMoves(e: Entry, c: ComponentSpec, a: Answer, timeout: Limit)
    requires Obliges(e, a, timeout)
    ensures Move(Submission, Move(Adoption, e, c, a, NO_LIMIT), c, a, NO_LIMIT).phase in {Submitting, Ready}
    ensures Move(Observation, e, c, a, NO_LIMIT).phase in {Deploying, Ready}
    ensures Move(Check, e, c, a, timeout).phase == Ready
    ensures !Stops(Observation, e, c, a, NO_LIMIT) && !Stops(Check, e, c, a, timeout)
  {
    hide Overdue;
  }

  lemma ObligedLand(entries: seq<Entry>, entries': seq<Entry>, level: seq<ComponentSpec>, k: nat, reply: Replies,
        timeout: Limit)
    requires UniqueEntries(entries) && AllOblige(entries, level, reply, timeout)
    requires SubmittedUpTo(k, entries, entries', Select(level, PhaseByName(entries), Submission), reply)
    ensures forall c | c in level && Get(entries, c.name).phase == Pending ::
              Get(entries', c.name).phase in {Submitting, Ready}
  {
    hide Get, Move, PhaseByName, Select, UniqueEntries;
    var need := Select(level, PhaseByName(entries), Submission);
    forall c | c in need ensures !Full(c, reply) {
      SelectedAre(entries, level, Submission, c);
      assert Obliges(Get(entries, c.name), reply(c.name), timeout);
    }
    assert k == |need|;
    forall c | c in level && Get(entries, c.name).phase == Pending
      ensures Get(entries', c.name).phase in {Submitting, Ready}
    {
      SelectedAre(entries, level, Submission, c);
      var i :| 0 <= i < |need| && need[i] == c;
      assert LandsAt(entries, entries', need[i], reply);
      ObligedMoves(Get(entries, c.name), c, reply(c.name), timeout);
    }
  }

  lemma ObligedWatch(w: Work, entries: seq<Entry>, entries': seq<Entry>, level: seq<ComponentSpec>, k: nat,
        reply: Replies, timeout: Limit, limit: Limit)
    requires (w == Observation && limit == NO_LIMIT) || (w == Check && limit == timeout)
    requires UniqueEntries(entries) && AllOblige(entries, level, reply, timeout)
    requires MovedUpTo(k, w, entries, entries', Select(level, PhaseByName(entries), w), reply, limit)
    ensures forall c | c in level && InFor(w, Get(entries, c.name).phase) ::
              Get(entries', c.name).phase in (if w == Check then {Ready} else {Deploying, Ready})
  {
    hide Get, Move, PhaseByName, Select, UniqueEntries, Stops, Obliges;
    var need := Select(level, PhaseByName(entries), w);
    forall c | c in need ensures !StopsAt(w, entries, c, reply, limit) {
      SelectedAre(entries, level, w, c);
      ObligedMoves(Get(entries, c.name), c, reply(c.name), timeout);
    }
    assert k == |need|;
    forall c | c in level && InFor(w, Get(entries, c.name).phase)
      ensures Get(entries', c.name).phase in (if w == Check then {Ready} else {Deploying, Ready})
    {
      SelectedAre(entries, level, w, c);
      var i :| 0 <= i < |need| && need[i] == c;
      assert MovesAt(w, entries, entries', need[i], reply, limit);
      ObligedMoves(Get(entries, c.name), c, reply(c.name), timeout);
    }
  }

  /** Who is in for nothing stays. */
  lemma IdleStays(k: nat, j: nat, entries: seq<Entry>, entries': seq<Entry>, level: seq<ComponentSpec>, reply: Replies,
        timeout: Limit, n: string)
    requires UniqueEntries(entries) && MovesDue(k, j, entries, entries', level, true, reply, timeout)
    requires Get(entries, n).phase in {Ready, Failed}
    ensures Get(entries', n) == Get(entries, n)
  {
    hide Get, PhaseByName, Select, UniqueEntries, SubmittedUpTo, MovedUpTo;
    forall w | w in {Submission, Observation, Check} ensures n !in Names(Select(level, PhaseByName(entries), w)) {
      forall c | c in Select(level, PhaseByName(entries), w) ensures c.name != n { SelectedAre(entries, level, w, c); }
      NamedByNobody(Select(level, PhaseByName(entries), w), n);
    }
  }

  lemma NobodySelected(entries: seq<Entry>, level: seq<ComponentSpec>, w: Work, phase: ComponentPhase)
    requires UniqueEntries(entries) && w in {Submission, Observation, Check} && InFor(w, phase)
    ensures Select(level, PhaseByName(entries), w) == [] <==> !Any(entries, level, phase)
  {
    hide Get, PhaseByName, Select, UniqueEntries;
    var need := Select(level, PhaseByName(entries), w);
    if need != [] {
      assert need[0] in need;
      SelectedAre(entries, level, w, need[0]);
    } else if Any(entries, level, phase) {
      var c :| c in level && Get(entries, c.name).phase == phase;
      SelectedAre(entries, level, w, c);
    }
  }

  lemma PendingComeOn(k: nat, j: nat, entries: seq<Entry>, entries': seq<Entry>, level: seq<ComponentSpec>,
        reply: Replies, timeout: Limit)
    requires UniqueEntries(entries) && AllOblige(entries, level, reply, timeout) && Any(entries, level, Pending)
    requires MovesDue(k, j, entries, entries', level, true, reply, timeout)
    ensures forall c | c in level ::
              Get(entries', c.name).phase in
                (if Get(entries, c.name).phase == Pending then {Submitting, Ready} else {Get(entries, c.name).phase})
  {
    hide Get, PhaseByName, Select, UniqueEntries, SubmittedUpTo, MovedUpTo, AllOblige;
    NobodySelected(entries, level, Submission, Pending);
    ObligedLand(entries, entries', level, k, reply, timeout);
    forall c | c in level && Get(entries, c.name).phase != Pending ensures KeepsAt(entries, entries', c) {
      SelectedAre(entries, level, Observation, c);
      SelectedAre(entries, level, Check, c);
      if Get(entries, c.name).phase in {Ready, Failed} {
        IdleStays(k, j, entries, entries', level, reply, timeout, c.name);
      }
    }
  }

  lemma WatchedComeOn(k: nat, j: nat, entries: seq<Entry>, entries': seq<Entry>, level: seq<ComponentSpec>,
        reply: Replies, timeout: Limit)
    requires UniqueEntries(entries) && AllOblige(entries, level, reply, timeout) && !Any(entries, level, Pending)
    requires NoneFailed(entries, level) && MovesDue(k, j, entries, entries', level, true, reply, timeout)
    ensures forall c | c in level ::
              Get(entries', c.name).phase in
                (if Get(entries, c.name).phase == Submitting then {Deploying, Ready} else {Ready})
  {
    hide Get, PhaseByName, Select, UniqueEntries, SubmittedUpTo, MovedUpTo;
    NobodySelected(entries, level, Submission, Pending);
    forall c | c in Select(level, PhaseByName(entries), Observation) ensures reply(c.name).observed.JobSucceeded? {
      SelectedAre(entries, level, Observation, c);
      assert Obliges(Get(entries, c.name), reply(c.name), timeout);
    }
    ObligedWatch(Observation, entries, entries', level, k, reply, timeout, NO_LIMIT);
    ObligedWatch(Check, entries, entries', level, j, reply, timeout, timeout);
    forall c | c in level && Get(entries, c.name).phase == Ready ensures Get(entries', c.name).phase == Ready {
      IdleStays(k, j, entries, entries', level, reply, timeout, c.name);
    }
  }

  /** With good answers a pass over a level brings it on, and nobody fails. */
  lemma LevelComesOn(k: nat, j: nat, entries: seq<Entry>, entries': seq<Entry>, level: seq<ComponentSpec>,
        reply: Replies, timeout: Limit)
    requires UniqueEntries(entries) && AllOblige(entries, level, reply, timeout) && NoneFailed(entries, level)
    requires !AllUp(entries, level) && MovesDue(k, j, entries, entries', level, true, reply, timeout)
    ensures Stage(entries', level) < Stage(entries, level) && NoneFailed(entries', level)
  {
    hide Get, MovesDue, UniqueEntries, AllOblige;
    if Any(entries, level, Pending) {
      PendingComeOn(k, j, entries, entries', level, reply, timeout);
    } else {
      WatchedComeOn(k, j, entries, entries', level, reply, timeout);
    }
  }

  // ---- runs -----------------------------------------------------------------------------------------------

  /** How many good passes the levels still take at most. */
  ghost function Rank(entries: seq<Entry>, levels: Levels): nat {
    if levels == [] then 0
    else if AllUp(entries, levels[0]) then Rank(entries, levels[1..])
    else Stage(entries, levels[0]) + 3 * (|levels| - 1)
  }

  lemma {:induction false} RankAt(entries: seq<Entry>, levels: Levels, l: nat)
    requires l <= |levels| && forall i | 0 <= i < l :: AllUp(entries, levels[i])
    ensures Rank(entries, levels) == Rank(entries, levels[l..])
  {
    hide AllUp, Stage;
    if l > 0 {
      RankAt(entries, levels[1..], l - 1);
      assert levels[1..][l - 1..] == levels[l..];
    }
  }

  lemma {:induction false} RankBounded(entries: seq<Entry>, levels: Levels)
    ensures Rank(entries, levels) <= 3 * |levels|
  {
    hide AllUp, Any;
    if levels != [] { RankBounded(entries, levels[1..]); }
  }

  /** A pass that opens and whose calls are answered as one hopes. */
  ghost predicate Cooperates(s: E.Status, t: Turn, cs: seq<ComponentSpec>, levels: Levels) {
    && t.pass.gate.Opens? && t.pass.gate.components == cs && t.pass.fetched && !t.pass.reset
    && Deployable(t.pass) && t.levels == Ok(levels) && Answers(t.pass, t.levels)
    && AllOblige(s.components, cs, t.pass.reply, t.pass.gate.timeout)
  }

  /** A status that nothing has failed in. */
  ghost predicate Healthy(s: E.Status, cs: seq<ComponentSpec>) {
    AllSound(s.components) && s.phase != E.EnvPhase.Failed && NoneFailed(s.components, cs)
  }

  lemma {:induction false} LessRank(entries: seq<Entry>, entries': seq<Entry>, levels: Levels, l: nat)
    requires l < |levels| && !AllUp(entries, levels[l])
    requires forall i | 0 <= i < l :: AllUp(entries, levels[i]) && AllUp(entries', levels[i])
    requires Stage(entries', levels[l]) < Stage(entries, levels[l])
    ensures Rank(entries', levels) < Rank(entries, levels)
  {
    hide AllUp, Any, Stage;
    RankAt(entries, levels, l);
    RankAt(entries', levels, l);
    RankBounded(entries', levels[l..][1..]);
  }

  /** A good pass brings the environment on. */
  lemma PassComesOn(s: E.Status, t: Turn, cs: seq<ComponentSpec>, levels: Levels)
    requires Healthy(s, cs) && Cooperates(s, t, cs, levels) && !AllUp(s.components, cs)
    ensures var s' := AfterPass(s, t.pass, t.levels).status;
      Healthy(s', cs) && Rank(s'.components, levels) < Rank(s.components, levels)
  {
    hide UniqueNames, MovesDue, WaitsDue, AfterPass, AllSound, Deployable, AllUp, Stage, AllOblige, NoneFailed;
    hide Answers, Get, NewlyFailed, Rank, UniqueEntries;
    var s' := AfterPass(s, t.pass, t.levels).status;
    SoundEntries(s.components);
    PassKeepsReady(s, t);
    var l, k, j, _, _ := PassMoves(s, t.pass, levels);
    LevelOfTemplate(s, t.pass, levels, l);
    LevelComesOn(k, j, s.components, s'.components, levels[l], t.pass.reply, t.pass.gate.timeout);
    forall i | 0 <= i < l ensures AllUp(s'.components, levels[i]) { ReadyStays(s, s', levels[i]); }
    LessRank(s.components, s'.components, levels, l);
    OthersStay(k, j, s.components, s'.components, cs, levels[l], t.pass.reply, t.pass.gate.timeout);
    PhaseWhenNoneFails(s, t.pass, t.levels);
  }

  lemma PassKeepsReady(s: E.Status, t: Turn)
    requires AllSound(s.components) && Answers(t.pass, t.levels) && !t.pass.reset
    ensures var s' := AfterPass(s, t.pass, t.levels).status;
      && AllSound(s'.components)
      && forall n :: Get(s.components, n).phase in {Ready, Failed} ==> Get(s'.components, n) == Get(s.components, n)
  {
    hide *;
    PassIsLawful(s, t.pass, t.levels);
    LawfulStays(s, AfterPass(s, t.pass, t.levels).status, t.pass);
  }

  lemma PhaseWhenNoneFails(s: E.Status, p: Pass, levels: Result<Levels, GraphError>)
    requires AllSound(s.components) && Answers(p, levels) && !p.reset
    requires p.gate.Opens? && Deployable(p) && s.phase != E.EnvPhase.Failed
    ensures var s' := AfterPass(s, p, levels).status;
      !NewlyFailed(s.components, s'.components) ==> s'.phase != E.EnvPhase.Failed
  {
    hide AllSound, Answers, Deployable, AfterPass, NewlyFailed, AllUp;
    PhaseOfPass(s, p, levels);
  }

  lemma LevelOfTemplate(s: E.Status, p: Pass, levels: Levels, l: nat)
    requires p.gate.Opens? && Answers(p, Ok(levels)) && l < |levels| && NoneFailed(s.components, p.gate.components)
    requires AllOblige(s.components, p.gate.components, p.reply, p.gate.timeout)
    ensures NoneFailed(s.components, levels[l]) && AllOblige(s.components, levels[l], p.reply, p.gate.timeout)
    ensures forall c | c in levels[l] :: c in p.gate.components
  {
    hide Get, Longest, UniqueNames, Obliges, KnownDependencies, Acyclic;
    forall c | c in levels[l] ensures c in p.gate.components {
      var i :| 0 <= i < |levels[l]| && levels[l][i] == c;
      assert Longest(p.gate.components, levels[l][i].name, l);
    }
  }

  lemma ReadyStays(s: E.Status, s': E.Status, level: seq<ComponentSpec>)
    requires forall n :: Get(s.components, n).phase in {Ready, Failed} ==> Get(s'.components, n) == Get(s.components, n)
    requires AllUp(s.components, level)
    ensures AllUp(s'.components, level)
  {
    hide Get;
  }

  /** Components of other levels do not fail either. */
  lemma OthersStay(k: nat, j: nat, entries: seq<Entry>, entries': seq<Entry>, cs: seq<ComponentSpec>,
        level: seq<ComponentSpec>, reply: Replies, timeout: Limit)
    requires UniqueEntries(entries) && MovesDue(k, j, entries, entries', level, true, reply, timeout)
    requires NoneFailed(entries, cs) && NoneFailed(entries', level)
    ensures NoneFailed(entries', cs) && !NewlyFailed(entries, entries')
  {
    hide Get, PhaseByName, Select, UniqueEntries, SubmittedUpTo, MovedUpTo, MovesDue;
    forall n ensures Get(entries', n).phase == Failed ==> Get(entries, n).phase == Failed {
      if Get(entries', n) != Get(entries, n) {
        var w := AmongDue(k, j, entries, entries', level, reply, timeout, n);
        var need := Select(level, PhaseByName(entries), w);
        var i :| 0 <= i < |need| && need[i].name == n;
        assert need[i] in need;
        SelectedAre(entries, level, w, need[i]);
      }
    }
  }

  lemma AmongDue(k: nat, j: nat, entries: seq<Entry>, entries': seq<Entry>, level: seq<ComponentSpec>, reply: Replies,
        timeout: Limit, n: string) returns (w: Work)
    requires MovesDue(k, j, entries, entries', level, true, reply, timeout) && Get(entries', n) != Get(entries, n)
    ensures w in {Submission, Observation, Check} && n in Names(Select(level, PhaseByName(entries), w))
  {
    hide Get, PhaseByName, Select, SubmittedUpTo, MovedUpTo;
    w := if n in Names(Select(level, PhaseByName(entries), Submission)) then Submission
         else if n in Names(Select(level, PhaseByName(entries), Observation)) then Observation else Check;
  }

  /** Every pass that reaches the server cooperates; others may come to anything. */
  ghost predicate AllCooperate(s: E.Status, run: seq<Turn>, cs: seq<ComponentSpec>, levels: Levels)
    decreases |run|
  {
    run == []
    || ((run[0].persisted ==> Cooperates(s, run[0], cs, levels)) && AllCooperate(Next(s, run[0]), run[1..], cs, levels))
  }

  function Persisted(run: seq<Turn>): nat {
    if run == [] then 0 else (if run[0].persisted then 1 else 0) + Persisted(run[1..])
  }

  /** Reported ready, with every component ready. */
  ghost predicate Arrived(s: E.Status, cs: seq<ComponentSpec>) {
    s.phase == E.EnvPhase.Ready && AllUp(s.components, cs)
  }

  lemma UpArrives(s: E.Status, t: Turn, cs: seq<ComponentSpec>, levels: Levels)
    requires Healthy(s, cs) && Cooperates(s, t, cs, levels) && AllUp(s.components, cs)
    ensures Healthy(AfterPass(s, t.pass, t.levels).status, cs) && Arrived(AfterPass(s, t.pass, t.levels).status, cs)
  {
    hide AllSound, AfterPass, Deployable, AllUp, Answers, NewlyFailed, AllOblige, NoneFailed;
    PhaseOfPass(s, t.pass, t.levels);
  }

  lemma {:induction false} RankedRunArrives(s: E.Status, run: seq<Turn>, cs: seq<ComponentSpec>, levels: Levels)
    requires Healthy(s, cs) && AllCooperate(s, run, cs, levels)
    requires Persisted(run) > Rank(s.components, levels) || Arrived(s, cs)
    ensures Arrived(Run(s, run), cs)
    decreases |run|
  {
    hide Healthy, Cooperates, AfterPass, AllUp, Rank;
    if run != [] {
      if run[0].persisted {
        if AllUp(s.components, cs) {
          UpArrives(s, run[0], cs, levels);
        } else {
          PassComesOn(s, run[0], cs, levels);
        }
      }
      RankedRunArrives(Next(s, run[0]), run[1..], cs, levels);
    }
  }

  /** An environment in which nothing has failed is reported ready, with every component ready, after
      three good passes a level and one more: one that submits, one that sees the Jobs done, one that
      finds the components up. */
  lemma GoodRunGetsReady(s: E.Status, run: seq<Turn>, cs: seq<ComponentSpec>, levels: Levels)
    requires Healthy(s, cs) && AllCooperate(s, run, cs, levels) && Persisted(run) > 3 * |levels|
    ensures Run(s, run).phase == E.EnvPhase.Ready
    ensures forall c | c in cs :: Get(Run(s, run).components, c.name).phase == Ready
  {
    hide Healthy, AllCooperate, Rank, Run, Persisted, Get;
    RankBounded(s.components, levels);
    RankedRunArrives(s, run, cs, levels);
  }
}
