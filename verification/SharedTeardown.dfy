/**
  The teardown of a shared component over a run of passes: when its finalizer goes, and what a
  pass may do about the uninstall that it finds.
 */
module SharedTeardown {
  import opened Wrappers
  import opened SharedAdmission
  import opened SharedRegistration

  /** No deploy Job is at work, or on its way out. */
  predicate Clear(job: DeployJob) {
    job.NoJob? || job.JobEnded?
  }

  /** The uninstall is over: it succeeded, or failed with its last retry. */
  predicate Finished(observed: Uninstall, retries: int) {
    observed.Succeeded? || (observed.Failed? && retries + 1 >= MAX_UNINSTALL_RETRIES)
  }

  /** When each outcome comes: every answer leads to the one whose condition it meets. */
  lemma OutcomesOfTeardown(job: DeployJob, observed: Uninstall, retries: int)
    ensures var out := Teardown(job, observed, retries);
      && (out.Released? <==> Clear(job) && Finished(observed, retries))
      && (out.Submitted? <==> Clear(job) && observed.NotSubmitted?)
      && (out.Retrying? <==> Clear(job) && observed.Failed? && retries + 1 < MAX_UNINSTALL_RETRIES)
      && (out.Retrying? ==> out.retries == retries + 1)
      && (out.Deferred? <==> job.JobDeleting? || job.JobAtWork? || (Clear(job) && observed.AtWork?))
      && (out.Broken? <==> job.JobUnreadable? || (Clear(job) && observed.Unreadable?))
  {
  }

  // ---- over a run of passes -------------------------------------------------------------------

  /** What a pass meets: whether the component is drained, its deploy Job, its uninstall, and
      whether the patch it sends lands. */
  datatype Visit = Visit(drained: bool, job: DeployJob, observed: Uninstall, patched: bool)

  /** The component's own record: its retries, its finalizer, and how many uninstalls were
      submitted. */
  datatype Record = Record(retries: int, finalizer: bool, submits: nat)

  function OutcomeOf(r: Record, v: Visit): TornDown {
    if v.drained then Teardown(v.job, v.observed, r.retries) else Deferred
  }

  function Next(r: Record, v: Visit): Record {
    if !r.finalizer then r
    else match OutcomeOf(r, v)
      case Deferred => r
      case Broken => r
      case Submitted => r.(submits := r.submits + 1)
      case Retrying(n) => if v.patched then r.(retries := n) else r
      case Released => if v.patched then r.(finalizer := false) else r
  }

  function Run(r: Record, visits: seq<Visit>): Record
    decreases |visits|
  {
    if visits == [] then r else Run(Next(r, visits[0]), visits[1..])
  }

  /** A visit whose patch counts: it finds the component drained, and its deploy Job ended. */
  predicate Counts(v: Visit) {
    v.drained && Clear(v.job) && v.patched
  }

  /** How many failures are on record after these visits. */
  function Failures(visits: seq<Visit>): nat
    decreases |visits|
  {
    if visits == [] then 0
    else Failures(visits[..|visits| - 1])
         + (if Counts(visits[|visits| - 1]) && visits[|visits| - 1].observed.Failed? then 1 else 0)
  }

  /** The i-th visit lets the component go: its uninstall succeeded, or failed after as many
      failures as make it the fifth. */
  predicate LetsGo(retries: int, visits: seq<Visit>, i: nat)
    requires i < |visits|
  {
    Counts(visits[i])
    && (visits[i].observed.Succeeded?
        || (visits[i].observed.Failed? && retries + Failures(visits[..i]) + 1 >= MAX_UNINSTALL_RETRIES))
  }

  lemma {:induction false} RunAppends(r: Record, visits: seq<Visit>, v: Visit)
    ensures Run(r, visits + [v]) == Next(Run(r, visits), v)
    decreases |visits|
  {
    hide Next;
    if visits == [] {
      assert (visits + [v])[1..] == [];
    } else {
      assert (visits + [v])[1..] == visits[1..] + [v] && (visits + [v])[0] == visits[0];
      RunAppends(Next(r, visits[0]), visits[1..], v);
    }
  }

  /** Over any run of visits: the finalizer is gone exactly when the uninstall of a drained
      component succeeded, or failed for the fifth time, at a visit that found no deploy Job at work
      and whose patch landed. Until then the failures on record are counted, once each. */
  lemma {:induction false} FinalizerGoesExactlyWhen(r: Record, visits: seq<Visit>)
    requires r.finalizer
    ensures !Run(r, visits).finalizer <==> exists i: nat :: i < |visits| && LetsGo(r.retries, visits, i)
    ensures Run(r, visits).finalizer ==> Run(r, visits).retries == r.retries + Failures(visits)
    decreases |visits|
  {
    hide Next, LetsGo, Run;
    if visits == [] {
      assert Run(r, []) == r by { EmptyRun(r); }
    } else {
      var n := |visits| - 1;
      var init, v := visits[..n], visits[n];
      assert visits == init + [v];
      FinalizerGoesExactlyWhen(r, init);
      RunAppends(r, init, v);
      forall i: nat | i < n ensures LetsGo(r.retries, visits, i) <==> LetsGo(r.retries, init, i) {
        SameLetsGo(r.retries, visits, n, i);
      }
      LastVisit(r, Run(r, init), visits);
    }
  }

  lemma EmptyRun(r: Record)
    ensures Run(r, []) == r
  {
  }

  lemma SameLetsGo(retries: int, visits: seq<Visit>, n: nat, i: nat)
    requires i < n <= |visits|
    ensures LetsGo(retries, visits[..n], i) <==> LetsGo(retries, visits, i)
  {
    assert visits[..n][..i] == visits[..i];
  }

  lemma LastVisit(r: Record, now: Record, visits: seq<Visit>)
    requires visits != [] && (now.finalizer ==> now.retries == r.retries + Failures(visits[..|visits| - 1]))
    ensures var v := visits[|visits| - 1];
      && (!Next(now, v).finalizer <==> !now.finalizer || LetsGo(r.retries, visits, |visits| - 1))
      && (Next(now, v).finalizer ==> Next(now, v).retries == r.retries + Failures(visits))
  {
    OutcomesOfTeardown(visits[|visits| - 1].job, visits[|visits| - 1].observed, now.retries);
    hide Teardown;
  }

  /** A visit that finds the uninstall at work, or a deploy Job, or consumers, changes nothing; and
      an uninstall is submitted exactly where there is none, on a drained component with no deploy
      Job at work. */
  lemma VisitChanges(r: Record, v: Visit)
    requires r.finalizer
    ensures !v.drained || !Clear(v.job) || v.observed.AtWork? || v.observed.Unreadable? ==> Next(r, v) == r
    ensures Next(r, v).submits == r.submits + (if v.drained && Clear(v.job) && v.observed.NotSubmitted? then 1 else 0)
  {
    OutcomesOfTeardown(v.job, v.observed, r.retries);
    hide Teardown;
  }

  // ---- the lease --------------------------------------------------------------------------------

  /** No time on record is ahead of the clock. */
  ghost predicate Stamped(s: State) {
    && (s.lease.Some? && s.lease.value.renewed.Some? ==> s.lease.value.renewed.value <= s.clock)
    && (forall pid | pid in s.processes :: s.processes[pid].stamp <= s.clock)
  }

  lemma CallKeepsStamps(rules: Rules, s: State, pid: nat)
    requires Stamped(s) && pid in s.processes
    ensures Stamped(Call(rules, s, pid)) && Call(rules, s, pid).clock == s.clock
    ensures Call(rules, s, pid).processes.Keys == s.processes.Keys
  {
    hide Consumers, Expired, InTime, Open;
  }

  lemma StepKeepsStamps(rules: Rules, s: State, a: Action)
    requires Stamped(s)
    ensures Stamped(Apply(rules, s, a))
  {
    if (a.Proceed? || a.LoseReply?) && a.pid in s.processes { CallKeepsStamps(rules, s, a.pid); }
    hide Call;
  }

  lemma {:induction false} RunKeepsStamps(rules: Rules, s: State, run: seq<Action>)
    requires Stamped(s)
    ensures Stamped(Execute(rules, s, run))
    decreases |run|
  {
    hide Apply, Stamped;
    if run != [] {
      StepKeepsStamps(rules, s, run[0]);
      RunKeepsStamps(rules, Apply(rules, s, run[0]), run[1..]);
    }
  }

  /** Whoever crashed with the lease in hand holds nobody up for more than thirty seconds: after any run
      and that time, the way is free exactly unless a lease was left that carries no time at all. */
  lemma LeaseFreesItself(rules: Rules, run: seq<Action>, elapsed: nat)
    requires elapsed > LEASE_DURATION
    ensures var s := Execute(rules, INITIAL, run);
      LeaseFree(Apply(rules, s, Tick(elapsed))) <==> s.lease.None? || s.lease.value.renewed.Some?
  {
    RunKeepsStamps(rules, INITIAL, run);
    hide Execute;
  }
}
