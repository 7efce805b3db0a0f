/** What the loops of a pass keep: component by component, and for the environment. */
module DeployLoops {
  import opened Wrappers
  import opened Template
  import opened DependencyGraph
  import opened ComponentStatus
  import E = Environment
  import opened Deploy
  import opened DeployMoves

  // ---- one loop ---------------------------------------------------------------------

  predicate Spent(cs: seq<Entry>, name: string) {
    Get(cs, name).retries >= MAX_DEPLOY_RETRIES
  }

  predicate Touched(w: Work, e: Entry, f: Entry, need: seq<ComponentSpec>, name: string, reply: Replies,
          timeout: Limit) {
    f == e || exists c | c in need :: c.name == name && f == Move(w, e, c, reply(name), timeout)
  }

  /** From cs to cs' each name in `need` moved once at most, and no other. */
  ghost predicate Moved(w: Work, cs: seq<Entry>, cs': seq<Entry>, need: seq<ComponentSpec>, reply: Replies,
        timeout: Limit) {
    && (UniqueEntries(cs) ==> UniqueEntries(cs'))
    && (forall n :: Has(cs, n) ==> Has(cs', n))
    && (forall n :: Has(cs', n) ==> Has(cs, n) || n in Names(need))
    && (forall n :: Touched(w, Get(cs, n), Get(cs', n), need, n, reply, timeout))
  }

  lemma {:induction false} StepsMove(w: Work, t: Tally, need: seq<ComponentSpec>, reply: Replies, timeout: Limit)
    requires UniqueNames(need)
    ensures Moved(w, t.status.components, Steps(w, t, need, reply, timeout).status.components, need, reply, timeout)
    decreases |need|
  {
    hide Step, Get, Has, UniqueEntries, Move;
    if need != [] && t.over.None? {
      var c, rest := need[0], need[1..];
      var a := reply(c.name);
      var u := Step(w, t, c, a, timeout);
      StepIsMove(w, t, c, a, timeout);
      StepsMove(w, u, rest, reply, timeout);
      MovedFirst(w, t.status.components, u.status.components,
                 Steps(w, u, rest, reply, timeout).status.components, need, reply, timeout);
    }
  }

  lemma MovedFirst(w: Work, cs: seq<Entry>, mid: seq<Entry>, cs': seq<Entry>, need: seq<ComponentSpec>,
        reply: Replies, timeout: Limit)
    requires UniqueNames(need) && need != []
    requires Rewrites(cs, mid, need[0].name, Move(w, Get(cs, need[0].name), need[0], reply(need[0].name), timeout))
    requires Moved(w, mid, cs', need[1..], reply, timeout)
    ensures Moved(w, cs, cs', need, reply, timeout)
  {
    hide Get, Has, UniqueEntries, Move;
    var c, rest := need[0], need[1..];
    assert Names(need) == Names(rest) + {c.name} && c.name !in Names(rest) by { NamesFirst(need); }
    forall n ensures Touched(w, Get(cs, n), Get(cs', n), need, n, reply, timeout) {
      assert Touched(w, Get(mid, n), Get(cs', n), rest, n, reply, timeout);
      assert forall d | d in rest :: d in need && d.name in Names(rest) by { NamesFirst(need); }
    }
  }

  lemma NamesFirst(need: seq<ComponentSpec>)
    requires UniqueNames(need) && need != []
    ensures Names(need) == Names(need[1..]) + {need[0].name} && need[0].name !in Names(need[1..])
    ensures forall d | d in need[1..] :: d in need && d.name in Names(need[1..])
  {
    var rest := need[1..];
    forall x | x in Names(need) ensures x in Names(rest) + {need[0].name} {
      var i :| 0 <= i < |need| && need[i].name == x;
      if i > 0 { assert rest[i - 1].name == x; }
    }
    forall x | x in Names(rest) ensures x in Names(need) && x != need[0].name {
      var i :| 0 <= i < |rest| && rest[i].name == x;
      assert need[i + 1].name == x;
    }
  }

  /** Names that are not in for this loop are not touched by it. */
  lemma NotInNeed(w: Work, cs: seq<Entry>, cs': seq<Entry>, need: seq<ComponentSpec>, reply: Replies, timeout: Limit,
        n: string)
    requires Moved(w, cs, cs', need, reply, timeout) && forall c | c in need :: c.name != n
    ensures Get(cs', n) == Get(cs, n)
  {
    assert Touched(w, Get(cs, n), Get(cs', n), need, n, reply, timeout);
  }

  ghost predicate AllFit(w: Work, cs: seq<Entry>, need: seq<ComponentSpec>, reply: Replies) {
    forall c | c in need :: Fits(w, Get(cs, c.name), c, reply(c.name))
  }

  ghost predicate AllLawful(cs: seq<Entry>, cs': seq<Entry>, reply: Replies, timeout: Limit) {
    forall n :: Lawful(Get(cs, n), Get(cs', n), reply(n).now, timeout)
  }

  lemma MovedIsLawful(w: Work, cs: seq<Entry>, cs': seq<Entry>, need: seq<ComponentSpec>, reply: Replies,
        timeout: Limit, limit: Limit)
    requires Moved(w, cs, cs', need, reply, timeout) && AllSound(cs) && AllFit(w, cs, need, reply)
    requires w == Check ==> limit == timeout
    ensures AllSound(cs') && AllLawful(cs, cs', reply, limit)
  {
    hide Move, Fits, Lawful, Sound, Has;
    forall n ensures Sound(Get(cs', n)) && Lawful(Get(cs, n), Get(cs', n), reply(n).now, limit) {
      var e, f := Get(cs, n), Get(cs', n);
      GetIsSound(cs, n);
      SameIsLawful(e, reply(n).now, limit);
      assert Touched(w, e, f, need, n, reply, timeout);
      if f != e {
        var c :| c in need && c.name == n && f == Move(w, e, c, reply(n), timeout);
        MoveIsLawful(w, e, c, reply(n), limit);
        OnlyCheckIsTimed(w, e, c, reply(n), timeout, limit);
      }
    }
    forall i | 0 <= i < |cs'| ensures Sound(cs'[i]) {
      UniqueFind(cs', i);
      GetAt(cs', i);
    }
  }

  lemma OnlyCheckIsTimed(w: Work, e: Entry, c: ComponentSpec, a: Answer, timeout: Limit, limit: Limit)
    requires w == Check ==> limit == timeout
    ensures Move(w, e, c, a, timeout) == Move(w, e, c, a, limit)
  {
  }

  lemma GetAt(cs: seq<Entry>, i: nat)
    requires i < |cs| && Find(cs, cs[i].name) == i
    ensures Get(cs, cs[i].name) == cs[i]
  {
  }

  lemma SameIsLawful(e: Entry, now: int, timeout: Limit)
    ensures Lawful(e, e, now, timeout)
  {
  }

  // ---- the environment over one loop -------------------------------------------------

  /** Whoever used up its retries ends the loop in failure. */
  ghost predicate Noticed(t: Tally, u: Tally) {
    && (t.exhausted ==> u.exhausted)
    && u.status.phase in {t.status.phase, E.EnvPhase.Failed}
    && (forall n :: Spent(u.status.components, n) && !Spent(t.status.components, n) ==>
          u.exhausted || u.status.phase == E.EnvPhase.Failed)
  }

  /** The moves that put a failure on the record. */
  predicate Blames(w: Work, e: Entry, c: ComponentSpec, a: Answer, timeout: Limit) {
    match w
    case Nothing => false
    case Adoption => false
    case Submission => a.submitted.Refused? || (a.submitted.AtCapacity? && !IsShared(c))
    case Observation => a.observed.JobFailed?
    case Check => Overdue(e, a.now, timeout)
  }

  lemma OnlyBlameSpends(w: Work, e: Entry, c: ComponentSpec, a: Answer, timeout: Limit)
    requires Move(w, e, c, a, timeout).retries >= MAX_DEPLOY_RETRIES > e.retries
    ensures Blames(w, e, c, a, timeout) && Wrap32(e.retries + 1) >= MAX_DEPLOY_RETRIES
  {
    hide Overdue, Wrap32;
  }

  lemma LastBlameFails(w: Work, t: Tally, c: ComponentSpec, a: Answer, timeout: Limit)
    requires Blames(w, Get(t.status.components, c.name), c, a, timeout) && Exhausts(t.status.components, c.name)
    ensures var u := Step(w, t, c, a, timeout); u.exhausted || u.status.phase == E.EnvPhase.Failed
  {
    hide Get, Struck, Exhausts, Overdue;
  }

  predicate StillFails(t: Tally, u: Tally) {
    (t.exhausted ==> u.exhausted) && u.status.phase in {t.status.phase, E.EnvPhase.Failed}
  }

  lemma SubmitKeepsFailing(t: Tally, c: ComponentSpec, o: Submitted)
    ensures StillFails(t, AfterSubmit(t, c, o))
  {
    hide Get, Struck, Exhausts, SetPhase;
  }

  lemma ObserveKeepsFailing(t: Tally, c: ComponentSpec, o: Observed, now: int)
    ensures StillFails(t, AfterObserveShared(t, c, o)) && StillFails(t, AfterObserve(t, c, o, now))
  {
    hide Get, Struck, Exhausts, SetPhase, ResetFailure, SetSince;
  }

  lemma CheckKeepsFailing(t: Tally, c: ComponentSpec, o: Checked, now: int, timeout: Limit)
    ensures StillFails(t, AfterCheck(t, c, o, now, timeout))
  {
    hide Get, Struck, Exhausts, Overdue, SetPhase, ResetFailure;
  }

  lemma StepKeepsFailing(w: Work, t: Tally, c: ComponentSpec, a: Answer, timeout: Limit)
    ensures StillFails(t, Step(w, t, c, a, timeout))
  {
    hide AfterSubmit, AfterObserve, AfterObserveShared, AfterCheck, Adopted;
    match w {
      case Nothing =>
      case Adoption =>
      case Submission => SubmitKeepsFailing(t, c, a.submitted);
      case Observation => ObserveKeepsFailing(t, c, a.observed, a.now);
      case Check => CheckKeepsFailing(t, c, a.checked, a.now, timeout);
    }
  }

  lemma StepNotices(w: Work, t: Tally, c: ComponentSpec, a: Answer, timeout: Limit)
    ensures Noticed(t, Step(w, t, c, a, timeout))
  {
    var cs := t.status.components;
    var u := Step(w, t, c, a, timeout);
    StepIsMove(w, t, c, a, timeout);
    StepKeepsFailing(w, t, c, a, timeout);
    hide Get, Step, Move, Blames, Wrap32;
    forall n | Spent(u.status.components, n) && !Spent(cs, n)
      ensures u.exhausted || u.status.phase == E.EnvPhase.Failed
    {
      assert n == c.name;
      OnlyBlameSpends(w, Get(cs, n), c, a, timeout);
      assert Exhausts(cs, n);
      LastBlameFails(w, t, c, a, timeout);
    }
  }

  lemma {:induction false} StepsNotice(w: Work, t: Tally, need: seq<ComponentSpec>, reply: Replies, timeout: Limit)
    ensures Noticed(t, Steps(w, t, need, reply, timeout))
    decreases |need|
  {
    hide Step, Spent;
    if need != [] && t.over.None? {
      StepNotices(w, t, need[0], reply(need[0].name), timeout);
      StepsNotice(w, Step(w, t, need[0], reply(need[0].name), timeout), need[1..], reply, timeout);
    }
  }

  // ---- a pass over a level -------------------------------------------------------------

  /** What a pass makes of a status: every component moves as the table allows, and retries
      are used up in a pass that fails the environment only. */
  ghost predicate Progress(s: E.Status, s': E.Status, reply: Replies, timeout: Limit) {
    && AllSound(s'.components)
    && AllLawful(s.components, s'.components, reply, timeout)
    && (forall n :: Has(s.components, n) ==> Has(s'.components, n))
    && s'.phase in {s.phase, E.EnvPhase.Failed}
    && (forall n :: Spent(s'.components, n) && !Spent(s.components, n) ==> s'.phase == E.EnvPhase.Failed)
  }

  lemma NoProgress(s: E.Status, reply: Replies, timeout: Limit)
    requires AllSound(s.components)
    ensures Progress(s, s, reply, timeout)
  {
    hide Get, Lawful, Has;
    forall n ensures Lawful(Get(s.components, n), Get(s.components, n), reply(n).now, timeout) {
      GetIsSound(s.components, n);
      SameIsLawful(Get(s.components, n), reply(n).now, timeout);
    }
  }

  /** One loop that notices what it spends. */
  lemma LoopProgress(w: Work, s: E.Status, need: seq<ComponentSpec>, reply: Replies, timeout: Limit, limit: Limit)
    requires AllSound(s.components) && UniqueNames(need) && AllFit(w, s.components, need, reply)
    requires w == Check ==> limit == timeout
    ensures var t := Steps(w, Blank(s), need, reply, timeout);
      && Moved(w, s.components, t.status.components, need, reply, timeout)
      && Progress(s, if t.exhausted then FailWith(t.status, "") else t.status, reply, limit)
  {
    hide Steps, Get, AllFit, Touched, UniqueNames, Spent, Has, Lawful, Sound, AllLawful;
    var t := Steps(w, Blank(s), need, reply, timeout);
    StepsMove(w, Blank(s), need, reply, timeout);
    MovedIsLawful(w, s.components, t.status.components, need, reply, timeout, limit);
    StepsNotice(w, Blank(s), need, reply, timeout);
  }

  /** Two loops in a row, no component moved by both. */
  lemma ProgressTwice(s: E.Status, mid: E.Status, s': E.Status, reply: Replies, timeout: Limit)
    requires Progress(s, mid, reply, timeout) && Progress(mid, s', reply, timeout)
    requires forall n ::
               Get(mid.components, n) == Get(s.components, n) || Get(s'.components, n) == Get(mid.components, n)
    ensures Progress(s, s', reply, timeout)
  {
    hide Get, Has, Lawful, AllSound;
    forall n ensures Lawful(Get(s.components, n), Get(s'.components, n), reply(n).now, timeout) {
      assert Lawful(Get(s.components, n), Get(mid.components, n), reply(n).now, timeout);
      assert Lawful(Get(mid.components, n), Get(s'.components, n), reply(n).now, timeout);
    }
    forall n | Spent(s'.components, n) && !Spent(s.components, n) ensures s'.phase == E.EnvPhase.Failed {
      assert Spent(mid.components, n) || !Spent(mid.components, n);
    }
  }

  lemma {:induction false} AdoptionOnlyAdopts(t: Tally, need: seq<ComponentSpec>, reply: Replies)
    ensures var u := Steps(Adoption, t, need, reply, NO_LIMIT);
      u == t.(status := t.status.(components := u.status.components))
    decreases |need|
  {
    hide Adopted;
    if need != [] && t.over.None? {
      AdoptionOnlyAdopts(Step(Adoption, t, need[0], reply(need[0].name), NO_LIMIT), need[1..], reply);
    }
  }

  lemma SameName(need: seq<ComponentSpec>, c: ComponentSpec, d: ComponentSpec)
    requires UniqueNames(need) && c in need && d in need && c.name == d.name
    ensures c == d
  {
    var i :| 0 <= i < |need| && need[i] == c;
    var j :| 0 <= j < |need| && need[j] == d;
  }

  /** After the first loop of submitDeploys: who was adopted has nothing left to submit. */
  lemma AdoptedThenFits(cs: seq<Entry>, mid: seq<Entry>, need: seq<ComponentSpec>, reply: Replies)
    requires UniqueNames(need) && AllFit(Adoption, cs, need, reply)
    requires Moved(Adoption, cs, mid, need, reply, NO_LIMIT)
    ensures AllFit(Submission, mid, need, reply)
  {
    hide Get, Has, UniqueEntries, UniqueNames;
    forall c | c in need ensures Fits(Submission, Get(mid, c.name), c, reply(c.name)) {
      assert Touched(Adoption, Get(cs, c.name), Get(mid, c.name), need, c.name, reply, NO_LIMIT);
      assert Fits(Adoption, Get(cs, c.name), c, reply(c.name));
      forall d | d in need && d.name == c.name ensures d == c { SameName(need, c, d); }
    }
  }

  lemma AdoptedOrSubmitted(cs: seq<Entry>, mid: seq<Entry>, cs': seq<Entry>, need: seq<ComponentSpec>,
        reply: Replies, n: string)
    requires UniqueNames(need)
    requires Moved(Adoption, cs, mid, need, reply, NO_LIMIT) && Moved(Submission, mid, cs', need, reply, NO_LIMIT)
    ensures Get(mid, n) == Get(cs, n) || Get(cs', n) == Get(mid, n)
  {
    hide Get, Has, UniqueEntries, UniqueNames;
    assert Touched(Adoption, Get(cs, n), Get(mid, n), need, n, reply, NO_LIMIT);
    assert Touched(Submission, Get(mid, n), Get(cs', n), need, n, reply, NO_LIMIT);
    forall c, d | c in need && d in need && c.name == n == d.name ensures c == d { SameName(need, c, d); }
  }

  lemma SubmitProgress(s: E.Status, need: seq<ComponentSpec>, reply: Replies, limit: Limit)
    requires AllSound(s.components) && UniqueNames(need) && AllFit(Adoption, s.components, need, reply)
    ensures var s' := SubmitPass(s, need, reply).status;
      Progress(s, s', reply, limit) && forall n :: Has(s'.components, n) ==> Has(s.components, n) || n in Names(need)
  {
    hide Steps, Get, Has, Touched, AllFit, UniqueNames, Spent, Lawful, AllLawful, AllSound, Progress;
    var mid := Steps(Adoption, Blank(s), need, reply, NO_LIMIT).status;
    LoopProgress(Adoption, s, need, reply, NO_LIMIT, limit);
    AdoptionOnlyAdopts(Blank(s), need, reply);
    AdoptedThenFits(s.components, mid.components, need, reply);
    ProgressIsSound(s, mid, reply, limit);
    LoopProgress(Submission, mid, need, reply, NO_LIMIT, limit);
    var t := Steps(Submission, Blank(mid), need, reply, NO_LIMIT);
    var s' := if t.exhausted then FailWith(t.status, "") else t.status;
    forall n ensures Get(mid.components, n) == Get(s.components, n) || Get(s'.components, n) == Get(mid.components, n) {
      AdoptedOrSubmitted(s.components, mid.components, s'.components, need, reply, n);
    }
    ProgressTwice(s, mid, s', reply, limit);
    QuitMeansFailed(Blank(mid), need, reply);
    ProgressLooksAt(s, s', SubmitPass(s, need, reply).status, reply, limit);
  }

  lemma ProgressIsSound(s: E.Status, s': E.Status, reply: Replies, timeout: Limit)
    requires Progress(s, s', reply, timeout)
    ensures AllSound(s'.components)
  {
  }

  /** Progress is about the components and the phase. */
  lemma ProgressLooksAt(s: E.Status, a: E.Status, b: E.Status, reply: Replies, timeout: Limit)
    requires Progress(s, a, reply, timeout) && a.components == b.components && a.phase == b.phase
    ensures Progress(s, b, reply, timeout)
  {
  }

  /** submitDeploys leaves its loop early with a failed environment only. */
  lemma {:induction false} QuitMeansFailed(t: Tally, need: seq<ComponentSpec>, reply: Replies)
    requires t.over.Some? ==> t.status.phase == E.EnvPhase.Failed
    ensures var u := Steps(Submission, t, need, reply, NO_LIMIT); u.over.Some? ==> u.status.phase == E.EnvPhase.Failed
    decreases |need|
  {
    hide SetPhase, Struck, Exhausts;
    if need != [] && t.over.None? {
      QuitMeansFailed(Step(Submission, t, need[0], reply(need[0].name), NO_LIMIT), need[1..], reply);
    }
  }

  /** The other two loops fail the environment themselves. */
  lemma {:induction false} ExhaustedMeansFailed(w: Work, t: Tally, need: seq<ComponentSpec>, reply: Replies,
        timeout: Limit)
    requires w == Observation || w == Check
    requires t.exhausted ==> t.status.phase == E.EnvPhase.Failed
    ensures var u := Steps(w, t, need, reply, timeout); u.exhausted ==> u.status.phase == E.EnvPhase.Failed
    decreases |need|
  {
    hide SetPhase, Struck, Exhausts, SetSince, ResetFailure, Get, Overdue;
    if need != [] && t.over.None? {
      ExhaustedMeansFailed(w, Step(w, t, need[0], reply(need[0].name), timeout), need[1..], reply, timeout);
    }
  }

  lemma WatchProgress(w: Work, s: E.Status, need: seq<ComponentSpec>, reply: Replies, timeout: Limit, limit: Limit)
    requires w == Observation || (w == Check && limit == timeout)
    requires AllSound(s.components) && UniqueNames(need) && AllFit(w, s.components, need, reply)
    ensures var s' := Steps(w, Blank(s), need, reply, timeout).status;
      Progress(s, s', reply, limit) && Moved(w, s.components, s'.components, need, reply, timeout)
  {
    hide Steps, Get, Has, Touched, AllFit, UniqueNames, Spent, Lawful, AllLawful, AllSound, Progress, Moved;
    LoopProgress(w, s, need, reply, timeout, limit);
    ExhaustedMeansFailed(w, Blank(s), need, reply, timeout);
    var t := Steps(w, Blank(s), need, reply, timeout);
    ProgressLooksAt(s, if t.exhausted then FailWith(t.status, "") else t.status, t.status, reply, limit);
  }

  // ---- who is in for what ------------------------------------------------------------

  lemma {:induction false} SelectUnique(level: seq<ComponentSpec>, phases: map<string, ComponentPhase>, w: Work)
    requires UniqueNames(level)
    ensures UniqueNames(Select(level, phases, w))
    decreases |level|
  {
    if level != [] {
      var rest := level[1..];
      SelectUnique(rest, phases, w);
      var kept := Select(rest, phases, w);
      forall i | 0 <= i < |kept| ensures kept[i].name != level[0].name {
        assert kept[i] in kept;
        SelectIsExact(rest, phases, w, kept[i]);
        var j :| 0 <= j < |rest| && rest[j] == kept[i];
        assert level[j + 1] == rest[j];
      }
    }
  }

  lemma SelectedFit(cs: seq<Entry>, level: seq<ComponentSpec>, w: Work, reply: Replies)
    requires UniqueEntries(cs) && w in {Submission, Observation, Check}
    ensures AllFit(if w == Submission then Adoption else w, cs, Select(level, PhaseByName(cs), w), reply)
  {
    hide PhaseByName, Get, Has, Select, UniqueEntries;
    forall c | c in Select(level, PhaseByName(cs), w)
      ensures Fits(if w == Submission then Adoption else w, Get(cs, c.name), c, reply(c.name))
    {
      SelectIsExact(level, PhaseByName(cs), w, c);
      PhaseByNameIsGet(cs, c.name);
      NewIsPending(cs, c.name);
    }
  }

  lemma NewIsPending(cs: seq<Entry>, name: string)
    ensures !Has(cs, name) ==> Get(cs, name).phase == Pending
  {
  }
}
