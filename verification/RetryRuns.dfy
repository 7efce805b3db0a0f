/**
  Helm components and shared ones: whose Jobs may raise the retry count twice, and runs in which
  they do.
 */
module RetryRuns {
  import opened Wrappers
  import opened Template
  import opened ComponentStatus
  import opened Deploy
  import opened DeployMoves
  import opened DeployLoops
  import opened RetryAccounting
  import opened RetryRaises
  import J = JobProtocol
  import JobServer

  /** From s to t by a legal run of passes for c, and of the Jobs that raised the count from r to r';
      current: every pass reads the version last persisted. */
  ghost predicate Goes(c: ComponentSpec, current: bool, s: Account, r: seq<Charge>, run: seq<Action>, t: Account,
                       r': seq<Charge>)
  {
    && Legal(s, run) && Execute(s, run) == t && Raised(s, run, r) == r'
    && (forall a | a in run :: Only(a, c)) && (current ==> UpToDate(s, run))
  }

  /** The pass is for c. */
  predicate Only(a: Action, c: ComponentSpec) {
    a.Look? ==> a.component == c
  }

  lemma GoOn(c: ComponentSpec, current: bool, s: Account, r: seq<Charge>, a: seq<Action>, t: Account, r': seq<Charge>,
             b: seq<Action>, u: Account, r'': seq<Charge>)
    requires Goes(c, current, s, r, a, t, r') && Goes(c, current, t, r', b, u, r'')
    ensures Goes(c, current, s, r, a + b, u, r'')
  {
    hide Legal, Execute, Raised, Only, UpToDate;
    RunConcat(s, a, b);
    RaisedConcat(s, a, b, r);
    if current { UpToDateConcat(s, a, b); }
  }

  lemma {:induction false} RaisedConcat(s: Account, a: seq<Action>, b: seq<Action>, r: seq<Charge>)
    ensures Raised(s, a + b, r) == Raised(Execute(s, a), b, Raised(s, a, r))
    decreases |a|
  {
    hide Apply, RaisedAfter;
    if a == [] {
      assert a + b == b;
    } else {
      assert (a + b)[1..] == a[1..] + b;
      RaisedConcat(Apply(s, a[0]), a[1..], b, RaisedAfter(s, a[0], r));
    }
  }

  lemma {:induction false} UpToDateConcat(s: Account, a: seq<Action>, b: seq<Action>)
    requires UpToDate(s, a) && UpToDate(Execute(s, a), b)
    ensures UpToDate(s, a + b)
    decreases |a|
  {
    hide Apply;
    if a == [] {
      assert a + b == b;
    } else {
      assert (a + b)[1..] == a[1..] + b;
      UpToDateConcat(Apply(s, a[0]), a[1..], b);
    }
  }

  predicate ReadsLast(s: Account, a: Action) {
    a.Look? ==> a.version == |s.versions| - 1
  }

  lemma Pair(c: ComponentSpec, s: Account, r: seq<Charge>, a: Action, b: Action)
    requires Possible(s, a) && Possible(Apply(s, a), b) && Only(a, c) && Only(b, c)
    ensures Goes(c, ReadsLast(s, a) && ReadsLast(Apply(s, a), b), s, r, [a, b], Apply(Apply(s, a), b),
                 RaisedAfter(Apply(s, a), b, RaisedAfter(s, a, r)))
  {
    hide Apply, Possible, RaisedAfter;
    var t, r' := Apply(s, a), RaisedAfter(s, a, r);
    assert [a, b][1..] == [b] && [b][1..] == [];
    assert Legal(t, [b]);
    assert Execute(t, [b]) == Apply(t, b) by { assert Execute(Apply(t, b), []) == Apply(t, b); }
    assert Raised(t, [b], r') == Raised(Apply(t, b), [], RaisedAfter(t, b, r'));
    assert ReadsLast(t, b) ==> UpToDate(t, [b]) by { assert UpToDate(Apply(t, b), []); }
  }

  // ---- what the runs are made of ------------------------------------------------------------------

  const OPTIONS := "options"
  const PAYLOAD := J.Payload(0, OPTIONS)
  const LANDS := Land(true, false)

  function Look1(v: nat, c: ComponentSpec, o: Observed): Action {
    Look(v, c, OPTIONS, Answer(Accepted(false), o, NotYet, 0), NO_LIMIT)
  }

  /** A submit that is accepted, over version v. */
  function Submitted(v: nat, c: ComponentSpec): seq<Action> {
    [Look1(v, c, JobPending), LANDS]
  }

  /** A failure that is observed. */
  function Noticing(v: nat, c: ComponentSpec): seq<Action> {
    [Look1(v, c, JobFailed("")), LANDS]
  }

  /** The Job, and its failure. */
  const JOB_FAILS := [Slot(J.ForeignCreate(PAYLOAD, true)), Slot(J.Report(J.Condition(J.JobFailed, true)))]

  /** A submit meets a cache that still shows the Job at work, and leaves it. */
  const CACHE_IS_STALE := [Slot(J.Begin(0, PAYLOAD)), Slot(J.ReadCache(0, 1))]

  const RUNNING_JOB := J.Job(0, PAYLOAD, [], false, true)
  const FAILED_JOB := RUNNING_JOB.(conditions := [J.Condition(J.JobFailed, true)])
  const JOBS := J.State(Some(FAILED_JOB), 1, [None, Some(RUNNING_JOB), Some(FAILED_JOB)], map[], [])
  const LEFT_ALONE := JOBS.(submits := map[0 := J.Submit(PAYLOAD, J.Finished(true))])
  const CHARGED := Charge(0, 0)

  function At(c: ComponentSpec, phase: ComponentPhase, retries: int): Record {
    var reason := if retries == 0 then "" else if IsShared(c) then "provision: " + "" else "";
    Record(Entry(c.name, IsShared(c), phase, retries, None, reason), None)
  }

  function Base(c: ComponentSpec, retries: nat): Record {
    if retries == 0 then Fresh(c.name) else At(c, Pending, retries)
  }

  lemma JobFails(c: ComponentSpec, s: Account, r: seq<Charge>)
    requires s.jobs == J.INITIAL
    ensures Goes(c, true, s, r, JOB_FAILS, s.(jobs := JOBS), r)
  {
    var create, report := Slot(J.ForeignCreate(PAYLOAD, true)), Slot(J.Report(J.Condition(J.JobFailed, true)));
    var t := Apply(s, create);
    assert t.jobs == J.State(Some(RUNNING_JOB), 1, [None, Some(RUNNING_JOB)], map[], []);
    assert RUNNING_JOB.conditions + [report.step.condition] == FAILED_JOB.conditions;
    assert t.jobs.past + [Some(FAILED_JOB)] == JOBS.past;
    Pair(c, s, r, create, report);
  }

  lemma CacheIsStale(c: ComponentSpec, s: Account, r: seq<Charge>)
    requires s.jobs == JOBS
    ensures Goes(c, true, s, r, CACHE_IS_STALE, s.(jobs := LEFT_ALONE), r)
  {
    var t := Apply(s, Slot(J.Begin(0, PAYLOAD)));
    assert t.jobs == JOBS.(submits := map[0 := J.Submit(PAYLOAD, J.Begun)]);
    assert J.Keep(RUNNING_JOB, PAYLOAD);
    assert Apply(t, Slot(J.ReadCache(0, 1))).jobs == LEFT_ALONE;
    Pair(c, s, r, Slot(J.Begin(0, PAYLOAD)), Slot(J.ReadCache(0, 1)));
  }

  lemma LandsDraft(c: ComponentSpec, s: Account, r: seq<Charge>, look: Action, record: Record, blame: Option<Blame>)
    requires look.Look? && Possible(s, look) && Only(look, c) && s.draft.None? && record.entry.phase != Ready
    requires Drafted(look.version, s.versions[look.version], s.jobs.slot, look.component, look.answer, look.timeout) ==
             Draft(look.version, record, blame)
    requires record.entry != s.versions[look.version].entry
    ensures Goes(c, ReadsLast(s, look), s, r, [look, LANDS], Landed(s, Draft(look.version, record, blame)),
                 if blame.Some? && blame.value.ByJob? && record.entry.retries > Current(s).entry.retries
                 then r + [blame.value.charge] else r)
  {
    hide Drafted, Truthful;
    Pair(c, s, r, look, LANDS);
  }

  lemma SubmitDraft(v: nat, slot: Option<J.Job>, c: ComponentSpec, retries: nat)
    requires retries <= 1
    ensures Drafted(v, Base(c, retries), slot, c, Look1(v, c, JobPending).answer, NO_LIMIT) ==
            Draft(v, At(c, Submitting, retries), None)
  {
  }

  lemma Submits(c: ComponentSpec, s: Account, r: seq<Charge>, v: nat, retries: nat)
    requires v < |s.versions| && retries <= 1 && s.draft.None? && s.versions[v] == Base(c, retries)
    ensures Goes(c, v == |s.versions| - 1, s, r, Submitted(v, c),
                 s.(versions := s.versions + [At(c, Submitting, retries)]), r)
  {
    hide Drafted, Goes;
    SubmitDraft(v, s.jobs.slot, c, retries);
    LandsDraft(c, s, r, Look1(v, c, JobPending), At(c, Submitting, retries), None);
  }

  lemma NoticeDraft(v: nat, c: ComponentSpec, retries: nat)
    requires retries <= 1 && (retries == 0 || IsShared(c))
    ensures Drafted(v, At(c, Submitting, retries), Some(FAILED_JOB), c, Look1(v, c, JobFailed("")).answer, NO_LIMIT) ==
            Draft(v, At(c, Pending, retries + 1), Some(ByJob(CHARGED)))
  {
    assert Wrap32(retries + 1) == retries + 1;
    hide Wrap32;
  }

  lemma FailureIsTrue(c: ComponentSpec, retries: nat)
    requires retries == 0 || IsShared(c)
    ensures Truthful(Some(FAILED_JOB), PayloadOf(At(c, Submitting, retries).entry, c, OPTIONS), JobFailed(""))
  {
    assert J.Terminal(FAILED_JOB.conditions) == J.Failed;
  }

  lemma Notices(c: ComponentSpec, s: Account, r: seq<Charge>, v: nat, retries: nat)
    requires v < |s.versions| && retries <= 1 && s.draft.None? && s.jobs.slot == Some(FAILED_JOB)
    requires s.versions[v] == At(c, Submitting, retries) && (retries == 0 || IsShared(c))
    ensures Goes(c, v == |s.versions| - 1, s, r, Noticing(v, c),
                 s.(versions := s.versions + [At(c, Pending, retries + 1)], charges := s.charges + [CHARGED]),
                 if retries + 1 > Current(s).entry.retries then r + [CHARGED] else r)
  {
    hide Drafted, Truthful, IsShared, PayloadOf, Goes;
    NoticeDraft(v, c, retries);
    FailureIsTrue(c, retries);
    LandsDraft(c, s, r, Look1(v, c, JobFailed("")), At(c, Pending, retries + 1), Some(ByJob(CHARGED)));
  }

  /** A pass over a version that waits for a Job, with a cache that has none. */
  lemma FallsBack(c: ComponentSpec, s: Account, r: seq<Charge>, v: nat)
    requires v < |s.versions| && s.draft.None? && s.versions[v] == At(c, Submitting, 0)
    ensures Goes(c, v == |s.versions| - 1, s, r, Submitted(v, c), s.(versions := s.versions + [At(c, Pending, 0)]), r)
  {
    assert Drafted(v, At(c, Submitting, 0), s.jobs.slot, c, Look1(v, c, JobPending).answer, NO_LIMIT) ==
           Draft(v, At(c, Pending, 0), None);
    hide Drafted, Goes;
    LandsDraft(c, s, r, Look1(v, c, JobPending), At(c, Pending, 0), None);
  }

  // ---- up to the first failure -----------------------------------------------------------------------

  function Beginning(c: ComponentSpec): seq<Action> {
    Submitted(0, c) + JOB_FAILS + Noticing(1, c)
  }

  function Begun(c: ComponentSpec): Account {
    Account(JOBS, [Fresh(c.name), At(c, Submitting, 0), At(c, Pending, 1)], [CHARGED], 0, None)
  }

  lemma Begins(c: ComponentSpec)
    ensures Goes(c, true, Start(c.name), [], Beginning(c), Begun(c), [CHARGED])
  {
    hide Goes;
    var s1 := Account(J.INITIAL, [Fresh(c.name), At(c, Submitting, 0)], [], 0, None);
    var s2 := s1.(jobs := JOBS);
    Submits(c, Start(c.name), [], 0, 0);
    assert [Fresh(c.name)] + [At(c, Submitting, 0)] == s1.versions;
    JobFails(c, s1, []);
    Notices(c, s2, [], 1, 0);
    assert s2.versions + [At(c, Pending, 1)] == Begun(c).versions && [] + [CHARGED] == [CHARGED];
    GoOn(c, true, Start(c.name), [], Submitted(0, c), s1, [], JOB_FAILS, s2, []);
    GoOn(c, true, Start(c.name), [], Submitted(0, c) + JOB_FAILS, s2, [], Noticing(1, c), Begun(c), [CHARGED]);
  }

  lemma TwiceIsTwice()
    ensures !NoJobTwice([CHARGED, CHARGED])
  {
    assert [CHARGED, CHARGED][0].uid == [CHARGED, CHARGED][1].uid;
  }

  // ---- stale reads ------------------------------------------------------------------------------------

  /** The pass that charged is repeated over the version it read: two charges, one retry. The
      books do not balance any more, but the count rose once. */
  lemma StaleReadUnbalances(c: ComponentSpec)
    requires !IsShared(c)
    ensures var run := Beginning(c) + Noticing(1, c);
      var s := Execute(Start(c.name), run);
      && Legal(Start(c.name), run) && s.charges == [CHARGED, CHARGED] && !NoJobTwice(s.charges)
      && s.versions != [] && Current(s).entry.retries == 1 && Raised(Start(c.name), run, []) == [CHARGED]
  {
    hide IsShared;
    Begins(c);
    Anyhow(c, true, Start(c.name), [], Beginning(c), Begun(c), [CHARGED]);
    Notices(c, Begun(c), [CHARGED], 1, 0);
    TwiceIsTwice();
    assert [CHARGED] + [CHARGED] == [CHARGED, CHARGED];
    var t := Begun(c).(versions := Begun(c).versions + [At(c, Pending, 1)], charges := [CHARGED, CHARGED]);
    GoOn(c, false, Start(c.name), [], Beginning(c), Begun(c), [CHARGED], Noticing(1, c), t, [CHARGED]);
    hide Legal, Execute, Raised;
  }

  function FallingRun(c: ComponentSpec): seq<Action> {
    Beginning(c) + Submitted(1, c) + CACHE_IS_STALE + Submitted(3, c) + Noticing(4, c)
  }

  function Fallen(c: ComponentSpec): Account {
    var versions := [Fresh(c.name), At(c, Submitting, 0), At(c, Pending, 1), At(c, Pending, 0), At(c, Submitting, 0),
                     At(c, Pending, 1)];
    Account(LEFT_ALONE, versions, [CHARGED, CHARGED], 0, None)
  }

  /** A pass over the version before the failure makes the count fall; the next submit leaves the
      failed Job alone, for a cache that shows it at work, and its failure is counted again. */
  lemma FallRaisesTwice(c: ComponentSpec)
    requires !IsShared(c)
    ensures Legal(Start(c.name), FallingRun(c)) && (forall a | a in FallingRun(c) :: Helm(a))
    ensures Execute(Start(c.name), FallingRun(c)) == Fallen(c)
    ensures Raised(Start(c.name), FallingRun(c), []) == [CHARGED, CHARGED] && !NoJobTwice([CHARGED, CHARGED])
  {
    hide Goes, At, Submitted, Noticing;
    var s0, one, two := Start(c.name), [CHARGED], [CHARGED, CHARGED];
    var a := Fresh(c.name);
    var s1 := Begun(c);
    var s2 := s1.(versions := [a, At(c, Submitting, 0), At(c, Pending, 1), At(c, Pending, 0)]);
    var s3 := s2.(jobs := LEFT_ALONE);
    var s4 := s3.(versions := s3.versions + [At(c, Submitting, 0)]);
    Begins(c);
    FallsBack(c, s1, one, 1);
    assert s1.versions + [At(c, Pending, 0)] == s2.versions;
    CacheIsStale(c, s2, one);
    PendingIsFresh(c);
    Submits(c, s3, one, 3, 0);
    LowerNow(c, s4);
    Notices(c, s4, one, 4, 0);
    assert s4.versions + [At(c, Pending, 1)] == Fallen(c).versions && one + one == two;
    Anyhow(c, true, s0, [], Beginning(c), s1, one);
    Anyhow(c, true, s2, one, CACHE_IS_STALE, s3, one);
    Anyhow(c, true, s3, one, Submitted(3, c), s4, one);
    Anyhow(c, true, s4, one, Noticing(4, c), Fallen(c), two);
    GoOn(c, false, s0, [], Beginning(c), s1, one, Submitted(1, c), s2, one);
    GoOn(c, false, s0, [], Beginning(c) + Submitted(1, c), s2, one, CACHE_IS_STALE, s3, one);
    GoOn(c, false, s0, [], Beginning(c) + Submitted(1, c) + CACHE_IS_STALE, s3, one, Submitted(3, c), s4, one);
    GoOn(c, false, s0, [], Beginning(c) + Submitted(1, c) + CACHE_IS_STALE + Submitted(3, c), s4, one,
         Noticing(4, c), Fallen(c), two);
    TwiceIsTwice();
    GoesMeans(c, false, s0, [], FallingRun(c), Fallen(c), two);
  }

  lemma PendingIsFresh(c: ComponentSpec)
    requires !IsShared(c)
    ensures At(c, Pending, 0) == Base(c, 0)
  {
  }

  lemma LowerNow(c: ComponentSpec, s: Account)
    requires s.versions != [] && Current(s) == At(c, Submitting, 0)
    ensures Current(s).entry.retries == 0
  {
  }

  /** A run that reads as it likes is one with fewer promises. */
  lemma Anyhow(c: ComponentSpec, current: bool, s: Account, r: seq<Charge>, run: seq<Action>, t: Account,
          r': seq<Charge>)
    requires Goes(c, current, s, r, run, t, r')
    ensures Goes(c, false, s, r, run, t, r')
  {
    hide Legal, Execute, Raised, UpToDate;
  }

  lemma GoesMeans(c: ComponentSpec, current: bool, s: Account, r: seq<Charge>, run: seq<Action>, t: Account,
          r': seq<Charge>)
    requires Goes(c, current, s, r, run, t, r')
    ensures current ==> UpToDate(s, run)
    ensures Legal(s, run) && Execute(s, run) == t && Raised(s, run, r) == r'
    ensures forall a | a in run :: Only(a, c)
    ensures !IsShared(c) ==> forall a | a in run :: Helm(a)
  {
    hide Legal, Execute, Raised, IsShared, UpToDate;
  }

  // ---- provision Jobs -----------------------------------------------------------------------------------

  function SharedRun(c: ComponentSpec): seq<Action> {
    Beginning(c) + CACHE_IS_STALE + Submitted(2, c) + Noticing(3, c)
  }

  /** The number in the payload is what keeps this from Helm components: a provision Job has
      none, and may raise the count twice, though every pass reads the version last persisted. */
  lemma SharedJobMayBeChargedTwice(c: ComponentSpec)
    requires IsShared(c)
    ensures Legal(Start(c.name), SharedRun(c)) && UpToDate(Start(c.name), SharedRun(c))
    ensures forall a | a in SharedRun(c) :: Only(a, c)
    ensures !NoJobTwice(Execute(Start(c.name), SharedRun(c)).charges)
            && !NoJobTwice(Raised(Start(c.name), SharedRun(c), []))
  {
    hide Goes, At, Submitted, Noticing, IsShared;
    var s0, one, two := Start(c.name), [CHARGED], [CHARGED, CHARGED];
    var s1 := Begun(c);
    var s2 := s1.(jobs := LEFT_ALONE);
    var s3 := s2.(versions := [Fresh(c.name), At(c, Submitting, 0), At(c, Pending, 1), At(c, Submitting, 1)]);
    var s4 := s3.(versions := s3.versions + [At(c, Pending, 2)], charges := two);
    Begins(c);
    CacheIsStale(c, s1, one);
    Submits(c, s2, one, 2, 1);
    assert s2.versions + [At(c, Submitting, 1)] == s3.versions;
    assert Current(s3).entry.retries == 1 by { AtRetries(c, Submitting, 1); }
    Notices(c, s3, one, 3, 1);
    assert one + one == two;
    GoOn(c, true, s0, [], Beginning(c), s1, one, CACHE_IS_STALE, s2, one);
    GoOn(c, true, s0, [], Beginning(c) + CACHE_IS_STALE, s2, one, Submitted(2, c), s3, one);
    GoOn(c, true, s0, [], Beginning(c) + CACHE_IS_STALE + Submitted(2, c), s3, one, Noticing(3, c), s4, two);
    TwiceIsTwice();
    GoesMeans(c, true, s0, [], SharedRun(c), s4, two);
  }

  lemma AtRetries(c: ComponentSpec, phase: ComponentPhase, retries: int)
    ensures At(c, phase, retries).entry.retries == retries
  {
  }

  // ---- Helm or shared -----------------------------------------------------------------------------------

  /** Passes for c alone, and over the version last persisted. */
  ghost predicate Careful(c: ComponentSpec, run: seq<Action>) {
    Legal(Start(c.name), run) && UpToDate(Start(c.name), run) && forall a | a in run :: Only(a, c)
  }

  ghost predicate RaisesOnce(c: ComponentSpec, run: seq<Action>) {
    NoJobTwice(Raised(Start(c.name), run, []))
  }

  /** When every pass reads the version last persisted: no Job of a component raises its count twice
      between two resets, whatever the run, exactly if the component is no shared one. */
  lemma RaisesOnceExactlyForHelm(c: ComponentSpec)
    ensures (forall run | Careful(c, run) :: RaisesOnce(c, run)) <==> !IsShared(c)
  {
    hide Legal, UpToDate, Raised, NoJobTwice;
    if IsShared(c) {
      SharedJobMayBeChargedTwice(c);
      assert Careful(c, SharedRun(c)) && !RaisesOnce(c, SharedRun(c));
    } else {
      forall run | Careful(c, run) ensures RaisesOnce(c, run) {
        UpToDateIsNeverDated(Start(c.name), run);
        NeverDatedNeverFalls(Start(c.name), run);
        NoJobRaisesTwice(c.name, run);
      }
    }
  }
}
