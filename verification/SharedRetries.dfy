/**
  Which runs are safe for a provision Job, whose payload has no attempt: those that start to wait
  for a Job again only when the one that was charged is gone, or on its way out.
 */
module SharedRetries {
  import opened Wrappers
  import opened Template
  import opened ComponentStatus
  import opened Deploy
  import opened DeployMoves
  import opened DeployLoops
  import opened RetryAccounting
  import opened RetryRaises
  import opened RetryRuns
  import J = JobProtocol
  import JobServer

  /** The slot does not hold this Job, or it is being deleted. */
  predicate Passed(slot: Option<J.Job>, c: Charge) {
    slot.None? || slot.value.uid != c.uid || slot.value.deleting
  }

  /** A list that says the component waits for its Job lands only when whoever raised the count
      has passed. */
  predicate Spares(s: Account, a: Action, raised: seq<Charge>) {
    Sent(s, a) && s.draft.value.record.entry.phase == Submitting ==> forall c | c in raised :: Passed(s.jobs.slot, c)
  }

  ghost predicate NeverReuses(s: Account, run: seq<Action>, raised: seq<Charge>)
    decreases |run|
  {
    run == []
    || (Spares(s, run[0], raised) && NeverReuses(Apply(s, run[0]), run[1..], RaisedAfter(s, run[0], raised)))
  }

  predicate Issued(jobs: J.State, c: Charge) {
    c.uid < jobs.next
  }

  predicate Uncharged(raised: seq<Charge>, c: Charge) {
    forall d | d in raised :: d.uid != c.uid
  }

  predicate DraftSpares(s: Account, d: Draft, raised: seq<Charge>) {
    && d.read == |s.versions| - 1 && d.record.entry.phase != Deploying
    && match d.blame
       case Some(ByJob(c)) => Issued(s.jobs, c) && Uncharged(raised, c) && d.record.entry.phase != Submitting
       case Some(ByRefusal) => true
       case None => true
  }

  ghost predicate SharedInv(s: Account, raised: seq<Charge>) {
    && s.versions != [] && Current(s).entry.phase != Deploying
    && NoJobTwice(raised) && (forall c | c in raised :: Issued(s.jobs, c))
    && (s.jobs.slot.Some? ==> s.jobs.slot.value.uid < s.jobs.next)
    && (Current(s).entry.phase == Submitting ==> forall c | c in raised :: Passed(s.jobs.slot, c))
    && (s.draft.Some? ==> DraftSpares(s, s.draft.value, raised))
  }

  lemma SlotKeepsPassed(s: J.State, a: J.Action, c: Charge)
    requires c.uid < s.next && Passed(s.slot, c)
    ensures Passed(J.Apply(s, a).slot, c)
  {
    J.StepAdvances(s, a);
    SlotIsSameOrNew(s, a);
    hide J.Apply;
  }

  lemma SlotStepShared(s: Account, step: J.Action, raised: seq<Charge>)
    requires SharedInv(s, raised)
    ensures SharedInv(Apply(s, Slot(step)), raised)
  {
    SlotIsSameOrNew(s.jobs, step);
    forall c | c in raised && Passed(s.jobs.slot, c) ensures Passed(J.Apply(s.jobs, step).slot, c) {
      SlotKeepsPassed(s.jobs, step, c);
    }
    hide J.Apply, Passed;
  }

  lemma SharedDraft(v: nat, r: Record, slot: Option<J.Job>, c: ComponentSpec, a: Answer, timeout: Limit)
    requires IsShared(c) && r.entry.phase != Deploying
    ensures var d := Drafted(v, r, slot, c, a, timeout);
      && d.read == v && d.record.entry.phase != Deploying
      && (d.blame.Some? && d.blame.value.ByJob? ==>
            r.entry.phase == Submitting && a.observed.JobFailed? && slot.Some? && d.blame.value.charge == InSlot(slot)
            && d.record.entry.phase != Submitting)
  {
    hide Wrap32, Overdue;
  }

  lemma LookShared(s: Account, a: Action, raised: seq<Charge>)
    requires SharedInv(s, raised) && a.Look? && IsShared(a.component) && a.version == |s.versions| - 1 && Possible(s, a)
    ensures SharedInv(Apply(s, a), raised)
  {
    hide Drafted, J.Terminal, NoJobTwice;
    SharedDraft(a.version, s.versions[a.version], s.jobs.slot, a.component, a.answer, a.timeout);
  }

  lemma AppendOnce(raised: seq<Charge>, c: Charge)
    requires NoJobTwice(raised) && Uncharged(raised, c)
    ensures NoJobTwice(raised + [c])
  {
    forall i | 0 <= i < |raised| ensures raised[i].uid != c.uid { assert raised[i] in raised; }
  }

  lemma LandShared(s: Account, a: Action, raised: seq<Charge>)
    requires SharedInv(s, raised) && Sent(s, a) && Spares(s, a, raised)
    ensures SharedInv(Apply(s, a), RaisedAfter(s, a, raised))
  {
    hide Passed, J.Apply, Drafted;
    var d := s.draft.value;
    assert Current(Landed(s, d)) == d.record;
    if RaisedBy(s, a).Some? && !Resets(s, a) { AppendOnce(raised, RaisedBy(s, a).value); }
    hide NoJobTwice, Uncharged;
    NobodyTwice();
  }

  lemma NobodyTwice()
    ensures NoJobTwice([])
  {
  }

  lemma StepShared(s: Account, a: Action, raised: seq<Charge>)
    requires SharedInv(s, raised) && Possible(s, a) && Spares(s, a, raised)
    requires a.Look? ==> IsShared(a.component) && a.version == |s.versions| - 1
    ensures SharedInv(Apply(s, a), RaisedAfter(s, a, raised))
  {
    NobodyTwice();
    if a.Slot? {
      SlotStepShared(s, a.step, raised);
      hide SharedInv, Apply;
    } else if a.Look? {
      LookShared(s, a, raised);
      hide SharedInv, Apply;
    } else if Sent(s, a) {
      LandShared(s, a, raised);
      hide SharedInv, Apply, RaisedAfter;
    } else {
      hide Passed, NoJobTwice;
    }
  }

  lemma {:induction false} RunShared(s: Account, run: seq<Action>, raised: seq<Charge>, c: ComponentSpec)
    requires SharedInv(s, raised) && Legal(s, run) && UpToDate(s, run) && NeverReuses(s, run, raised)
    requires IsShared(c) && forall a | a in run :: Only(a, c)
    ensures SharedInv(Execute(s, run), Raised(s, run, raised))
    decreases |run|
  {
    hide SharedInv, Apply, Possible, Spares, RaisedAfter, IsShared;
    if run != [] {
      assert Only(run[0], c);
      StepShared(s, run[0], raised);
      RunShared(Apply(s, run[0]), run[1..], RaisedAfter(s, run[0], raised), c);
    }
  }

  /** A provision Job raises the count once at most, too, in the runs in which a shared component
      waits for its Job again only when the Job that was charged is gone or being deleted. */
  lemma SharedRaisesOnceWhenSpared(c: ComponentSpec, run: seq<Action>)
    requires IsShared(c) && Careful(c, run) && NeverReuses(Start(c.name), run, [])
    ensures RaisesOnce(c, run)
  {
    NobodyTwice();
    assert SharedInv(Start(c.name), []);
    hide Legal, UpToDate, NeverReuses, Raised, Execute, IsShared;
    RunShared(Start(c.name), run, [], c);
  }
}
