/**
  How often one Job raises the retry count on the server: the count rises, falls and is reset as
  patches land, whatever versions the passes read.
 */
module RetryRaises {
  import opened Wrappers
  import opened Template
  import opened ComponentStatus
  import opened Deploy
  import opened DeployMoves
  import opened DeployLoops
  import opened RetryAccounting
  import J = JobProtocol
  import JobServer

  /** The Job on whose account the step puts a higher count on the server, if any. */
  function RaisedBy(s: Account, a: Action): Option<Charge> {
    if Sent(s, a) && s.draft.value.record.entry.retries > Current(s).entry.retries then
      match s.draft.value.blame
      case Some(ByJob(c)) => Some(c)
      case Some(ByRefusal) => None
      case None => None
    else None
  }

  /** The count starts over: a new generation, or the component is ready. */
  predicate Resets(s: Account, a: Action) {
    a.Generation? || (Sent(s, a) && s.draft.value.record.entry.phase == Ready)
  }

  function RaisedAfter(s: Account, a: Action, raised: seq<Charge>): seq<Charge> {
    if Resets(s, a) then []
    else match RaisedBy(s, a)
      case Some(c) => raised + [c]
      case None => raised
  }

  /** The Jobs that raised the count since it was last reset, in order: those before the run, and
      those of the run. */
  function Raised(s: Account, run: seq<Action>, raised: seq<Charge>): seq<Charge>
    decreases |run|
  {
    if run == [] then raised else Raised(Apply(s, run[0]), run[1..], RaisedAfter(s, run[0], raised))
  }

  /** A list lands from a read whose count, with the retry it adds, is below the one on the server,
      and does not make the component ready. */
  predicate Falls(s: Account, a: Action) {
    && Sent(s, a) && s.draft.value.record.entry.phase != Ready
    && s.versions[s.draft.value.read].entry.retries
         + (if s.draft.value.blame.Some? then 1 else 0) < Current(s).entry.retries
  }

  // ---- when the count falls ---------------------------------------------------------------------

  predicate Lowers(s: Account, t: Account) {
    s.versions != [] && t.versions != [] && Current(t).entry.retries < Current(s).entry.retries
  }

  /** But for resets, a step lowers the count on the server exactly when such a list lands. */
  lemma CountFallsExactlyWhen(s: Account, a: Action)
    requires Inv(s) && !Resets(s, a)
    ensures Lowers(s, Apply(s, a)) <==> Falls(s, a)
  {
    hide J.Apply, Drafted, JobsSound, Known, Sound;
    if Sent(s, a) {
      var d := s.draft.value;
      assert DraftSound(s.jobs, s.versions[d.read], d);
      assert Current(Landed(s, d)) == d.record;
    }
  }

  ghost predicate NeverFalls(s: Account, run: seq<Action>)
    decreases |run|
  {
    run == [] || (!Falls(s, run[0]) && NeverFalls(Apply(s, run[0]), run[1..]))
  }

  /** Between resets the count on the server is never lowered. */
  ghost predicate Climbs(s: Account, run: seq<Action>)
    decreases |run|
  {
    run == []
    || ((Resets(s, run[0]) || !Lowers(s, Apply(s, run[0]))) && Climbs(Apply(s, run[0]), run[1..]))
  }

  /** Over any run of a Helm component, however old the reads: between resets the count on the server
      only climbs, exactly when no such list lands. */
  lemma {:induction false} CountClimbsExactlyWhen(s: Account, run: seq<Action>)
    requires Inv(s) && Legal(s, run) && forall a | a in run :: Helm(a)
    ensures Climbs(s, run) <==> NeverFalls(s, run)
    decreases |run|
  {
    if run != [] {
      if Resets(s, run[0]) { assert !Falls(s, run[0]); } else { CountFallsExactlyWhen(s, run[0]); }
      StepKeepsInv(s, run[0]);
      hide Inv, Apply, Possible, Falls, Resets, Lowers;
      CountClimbsExactlyWhen(Apply(s, run[0]), run[1..]);
    }
  }

  // ---- no Job raises it twice --------------------------------------------------------------------

  /** Whoever raised the count carried an attempt below the present one. */
  ghost predicate RaisedSound(s: Account, raised: seq<Charge>) {
    Settled(s.(charges := raised))
  }

  lemma LandingKeepsRaised(s: Account, a: Action, raised: seq<Charge>)
    requires Inv(s) && RaisedSound(s, raised) && Sent(s, a) && !Falls(s, a)
    ensures RaisedSound(Apply(s, a), RaisedAfter(s, a, raised))
  {
    hide JobsSound, Known, Sound, Drafted, J.Apply;
    var d := s.draft.value;
    assert DraftSound(s.jobs, s.versions[d.read], d);
    assert Current(Landed(s, d)) == d.record;
    if RaisedBy(s, a).Some? && !Resets(s, a) { ChargeOnce(s.(charges := raised), RaisedBy(s, a).value); }
  }

  lemma StepKeepsRaised(s: Account, a: Action, raised: seq<Charge>)
    requires Inv(s) && RaisedSound(s, raised) && !Falls(s, a)
    ensures RaisedSound(Apply(s, a), RaisedAfter(s, a, raised))
  {
    if Sent(s, a) {
      LandingKeepsRaised(s, a, raised);
      hide Apply, RaisedAfter, RaisedSound;
    } else if a.Slot? {
      SlotStepKeepsJobs(s.jobs, a.step);
      hide J.Apply, Known, JobsSound;
      forall c | c in raised ensures Known(J.Apply(s.jobs, a.step), c) {
        KnownStays(s.jobs, J.Apply(s.jobs, a.step), c);
      }
    } else {
      hide Drafted, Known, JobsSound, J.Apply;
    }
  }

  lemma {:induction false} RunKeepsRaised(s: Account, run: seq<Action>, raised: seq<Charge>)
    requires Inv(s) && RaisedSound(s, raised)
    requires Legal(s, run) && NeverFalls(s, run) && forall a | a in run :: Helm(a)
    ensures RaisedSound(Execute(s, run), Raised(s, run, raised))
    decreases |run|
  {
    hide Inv, Apply, Possible, RaisedSound, Falls, RaisedAfter;
    if run != [] {
      StepKeepsInv(s, run[0]);
      StepKeepsRaised(s, run[0], raised);
      RunKeepsRaised(Apply(s, run[0]), run[1..], RaisedAfter(s, run[0], raised));
    }
  }

  /** Between two resets, one Helm deploy Job raises the count on the server once at most, by its
      failure or by a readiness timeout: also when status patches are lost and passes repeat, over
      versions of any age, as long as the count does not fall. */
  lemma NoJobRaisesTwice(name: string, run: seq<Action>)
    requires Legal(Start(name), run) && NeverFalls(Start(name), run) && forall a | a in run :: Helm(a)
    ensures NoJobTwice(Raised(Start(name), run, []))
  {
    StartIsSound(name);
    hide Inv, Legal, NeverFalls, Execute, Raised;
    RunKeepsRaised(Start(name), run, []);
  }

  /** Landings that keep the books balanced never make the count fall; so passes over the version
      last persisted do not. */
  lemma {:induction false} NeverDatedNeverFalls(s: Account, run: seq<Action>)
    requires NeverDated(s, run)
    ensures NeverFalls(s, run)
    decreases |run|
  {
    if run != [] {
      assert !Falls(s, run[0]);
      hide Apply, Falls, Dated;
      NeverDatedNeverFalls(Apply(s, run[0]), run[1..]);
    }
  }

  // ---- whom the next pass may charge ---------------------------------------------------------------

  /** A pass that looks, and lands, raises the count on account of `j`. */
  ghost predicate PassRaises(s: Account, look: Action, others: bool, j: Charge) {
    look.Look? && Possible(s, look) && RaisedBy(Apply(s, look), Land(true, others)) == Some(j)
  }

  predicate IsFor(look: Action, c: ComponentSpec, options: string) {
    look.Look? && look.component == c && look.options == options
  }

  /** Version v shows `j` at fault: it waits for the Job that failed with its payload, or it deploys
      since the success of `j`. */
  predicate AtFault(s: Account, v: nat, c: ComponentSpec, options: string, j: Charge)
    requires v < |s.versions|
  {
    var r := s.versions[v];
    match r.entry.phase
    case Submitting =>
      JobServer.Witness(s.jobs.slot, PayloadOf(r.entry, c, options), J.Failed) && InSlot(s.jobs.slot) == j
    case Deploying => r.culprit == Some(j)
    case Pending => false
    case Ready => false
    case Failed => false
  }

  ghost predicate CanRaise(s: Account, c: ComponentSpec, options: string, j: Charge) {
    s.versions != []
    && exists v: nat ::
         v < |s.versions| && s.versions[v].entry.retries >= Current(s).entry.retries && AtFault(s, v, c, options, j)
  }

  lemma DraftBlames(v: nat, r: Record, slot: Option<J.Job>, c: ComponentSpec, a: Answer, timeout: Limit, j: Charge)
    requires Sound(r.entry) && Drafted(v, r, slot, c, a, timeout).blame == Some(ByJob(j))
    ensures if r.entry.phase == Submitting then a.observed.JobFailed? && slot.Some? && j == InSlot(slot)
            else r.entry.phase == Deploying && r.culprit == Some(j)
    ensures Drafted(v, r, slot, c, a, timeout).record.entry.retries == r.entry.retries + 1
  {
    assert Wrap32(r.entry.retries + 1) == r.entry.retries + 1;
    hide Wrap32, Overdue;
  }

  lemma PassRaisesAtFault(s: Account, look: Action, others: bool, j: Charge)
    requires Inv(s) && PassRaises(s, look, others, j)
    ensures CanRaise(s, look.component, look.options, j)
  {
    hide JobsSound, Known, Sound, Drafted, DraftSound;
    var v := look.version;
    assert RecordSound(s.jobs, s.versions[v]);
    DraftBlames(v, s.versions[v], s.jobs.slot, look.component, look.answer, look.timeout, j);
    assert AtFault(s, v, look.component, look.options, j);
  }

  /** The answer that charges version v. */
  function Charging(v: nat, r: Record, c: ComponentSpec, options: string): Action {
    if r.entry.phase == Deploying && r.entry.since.Some? then
      Look(v, c, options, Answer(Accepted(false), JobPending, NotYet, r.entry.since.value + 1), NO_LIMIT)
    else Look(v, c, options, Answer(Accepted(false), JobFailed(""), NotYet, 0), NO_LIMIT)
  }

  lemma ChargingDraft(v: nat, r: Record, slot: Option<J.Job>, c: ComponentSpec, options: string, j: Charge)
    requires Sound(r.entry)
    requires (r.entry.phase == Submitting && slot.Some? && InSlot(slot) == j)
             || (r.entry.phase == Deploying && r.culprit == Some(j))
    ensures var look := Charging(v, r, c, options);
      var d := Drafted(v, r, slot, c, look.answer, look.timeout);
      d.read == v && d.blame == Some(ByJob(j)) && d.record.entry.retries == r.entry.retries + 1
  {
    assert Wrap32(r.entry.retries + 1) == r.entry.retries + 1;
    hide Wrap32;
  }

  lemma AtFaultPassRaises(s: Account, v: nat, c: ComponentSpec, options: string, j: Charge)
    requires Inv(s) && v < |s.versions| && AtFault(s, v, c, options, j)
    requires s.versions[v].entry.retries >= Current(s).entry.retries
    ensures PassRaises(s, Charging(v, s.versions[v], c, options), false, j)
  {
    hide JobsSound, Known, Drafted, J.Terminal;
    assert RecordSound(s.jobs, s.versions[v]);
    ChargingDraft(v, s.versions[v], s.jobs.slot, c, options, j);
  }

  /** Whatever version the next pass reads, and whatever it is answered: it can raise the count on
      account of `j`, again or for the first time, exactly when a version that shows no smaller
      count than the server's has `j` at fault. */
  lemma NextPassRaisesExactlyWhen(s: Account, c: ComponentSpec, options: string, j: Charge)
    requires Inv(s)
    ensures (exists look: Action, others: bool :: IsFor(look, c, options) && PassRaises(s, look, others, j))
            <==> CanRaise(s, c, options, j)
  {
    hide Inv, AtFault, PassRaises;
    if look: Action, others: bool :| IsFor(look, c, options) && PassRaises(s, look, others, j) {
      PassRaisesAtFault(s, look, others, j);
    }
    if CanRaise(s, c, options, j) {
      var v: nat :|
        v < |s.versions| && s.versions[v].entry.retries >= Current(s).entry.retries && AtFault(s, v, c, options, j);
      AtFaultPassRaises(s, v, c, options, j);
      assert PassRaises(s, Charging(v, s.versions[v], c, options), false, j);
    }
  }
}
