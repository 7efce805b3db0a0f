/**
  Which Job a retry is charged to. One component of an environment and its deploy Job's slot:
  passes over the component's entry as any version of the status shows it, and any step of the
  slot between them.
 */
module RetryAccounting {
  import opened Wrappers
  import opened Template
  import opened ComponentStatus
  import opened Deploy
  import opened DeployMoves
  import opened DeployLoops
  import J = JobProtocol
  import JobServer

  /** The Job that is charged, and the attempt it carries. */
  datatype Charge = Charge(uid: nat, attempt: int)

  /** What takes a retry: a Job, or a submit that was refused. */
  datatype Blame = ByJob(charge: Charge) | ByRefusal

  /** An entry as the server holds it; culprit is the Job whose success started the present
      readiness wait. */
  datatype Record = Record(entry: Entry, culprit: Option<Charge>)

  /** What a pass made of the version it read, and has not sent yet. */
  datatype Draft = Draft(read: nat, record: Record, blame: Option<Blame>)

  /** versions are all the records there were, the last one is current. charges and refusals are
      history since the retries were last reset. */
  datatype Account = Account(jobs: J.State, versions: seq<Record>, charges: seq<Charge>, refusals: nat,
                             draft: Option<Draft>)

  /** Slot: a step of the Jobs' world. Look: a pass reads a version and asks for the component;
      options are what it renders but for the attempt. Land: its merge patch, which may not get
      through; it carries the list of components if the pass changed this entry, or others. */
  datatype Action =
    | Slot(step: J.Action)
    | Look(version: nat, component: ComponentSpec, options: string, answer: Answer, timeout: Limit)
    | Land(persisted: bool, others: bool)
    | Generation

  function Fresh(name: string): Record {
    Record(Entry(name, false, Pending, 0, None, ""), None)
  }

  function Current(s: Account): Record
    requires s.versions != []
  {
    s.versions[|s.versions| - 1]
  }

  /** deployOpts numbers the attempt; the Provisioner's options have no number. */
  function PayloadOf(e: Entry, c: ComponentSpec, options: string): J.Payload {
    J.Payload(if IsShared(c) then 0 else e.retries, options)
  }

  /** What observe promises of its answers. */
  predicate Truthful(slot: Option<J.Job>, payload: J.Payload, o: Observed) {
    match o
    case JobSucceeded => JobServer.Witness(slot, payload, J.Succeeded)
    case JobFailed(_) => JobServer.Witness(slot, payload, J.Failed)
    case JobPending => true
    case JobRunning => true
    case ObserveError => true
  }

  function InSlot(slot: Option<J.Job>): Charge
    requires slot.Some?
  {
    Charge(slot.value.uid, slot.value.payload.attempt)
  }

  /** Who is to blame when this kind of work fails. */
  function BlameOf(w: Work, r: Record, slot: Option<J.Job>): Option<Blame> {
    match w
    case Observation => if slot.Some? then Some(ByJob(InSlot(slot))) else None
    case Check => if r.culprit.Some? then Some(ByJob(r.culprit.value)) else None
    case Submission => Some(ByRefusal)
    case Nothing => None
    case Adoption => None
  }

  /** A pass over a record: the move of the component, and who it is charged to. */
  function Drafted(read: nat, r: Record, slot: Option<J.Job>, c: ComponentSpec, a: Answer, timeout: Limit): Draft {
    var w := WorkAt(r.entry.phase);
    var e := if w == Submission then Move(Adoption, r.entry, c, a, timeout) else r.entry;
    var f := Move(w, e, c, a, timeout);
    if f.phase == Ready then Draft(read, Record(f, None), None)
    else if Blames(w, r.entry, c, a, timeout) then Draft(read, Record(f, None), BlameOf(w, r, slot))
    else if w == Observation && a.observed.JobSucceeded? && slot.Some? then
      Draft(read, Record(f, Some(InSlot(slot))), None)
    else Draft(read, Record(f, r.culprit), None)
  }

  /** Does the landing put the pass's list of components on the server? */
  predicate Sent(s: Account, a: Action) {
    && a.Land? && a.persisted && s.draft.Some? && s.draft.value.read < |s.versions|
    && (a.others || s.draft.value.record.entry != s.versions[s.draft.value.read].entry)
  }

  /** A ready component starts over, anything else adds its blame. */
  function Landed(s: Account, d: Draft): Account {
    var t := s.(versions := s.versions + [d.record], draft := None);
    if d.record.entry.phase == Ready then t.(charges := [], refusals := 0)
    else match d.blame
      case None => t
      case Some(ByJob(c)) => t.(charges := s.charges + [c])
      case Some(ByRefusal) => t.(refusals := s.refusals + 1)
  }

  function Apply(s: Account, a: Action): Account {
    match a
    case Slot(step) => s.(jobs := J.Apply(s.jobs, step))
    case Look(v, c, _, answer, timeout) =>
      if v < |s.versions| then s.(draft := Some(Drafted(v, s.versions[v], s.jobs.slot, c, answer, timeout))) else s
    case Land(_, _) => if Sent(s, a) then Landed(s, s.draft.value) else s.(draft := None)
    case Generation =>
      if s.versions == [] then s
      else s.(versions := s.versions + [Fresh(Current(s).entry.name)], charges := [], refusals := 0, draft := None)
  }

  predicate Possible(s: Account, a: Action) {
    match a
    case Look(v, c, options, answer, _) =>
      v < |s.versions| && Truthful(s.jobs.slot, PayloadOf(s.versions[v].entry, c, options), answer.observed)
    case Slot(_) => true
    case Land(_, _) => true
    case Generation => true
  }

  predicate Helm(a: Action) {
    a.Look? ==> !IsShared(a.component)
  }

  ghost predicate Legal(s: Account, run: seq<Action>)
    decreases |run|
  {
    run == [] || (Possible(s, run[0]) && Legal(Apply(s, run[0]), run[1..]))
  }

  function Execute(s: Account, run: seq<Action>): Account
    decreases |run|
  {
    if run == [] then s else Execute(Apply(s, run[0]), run[1..])
  }

  function Start(name: string): Account {
    Account(J.INITIAL, [Fresh(name)], [], 0, None)
  }

  // ---- the Jobs' world ------------------------------------------------------------------------

  /** A UID stands for one payload for good. */
  ghost predicate JobsSound(jobs: J.State) {
    && jobs.past != [] && jobs.past[|jobs.past| - 1] == jobs.slot
    && (forall v | 0 <= v < |jobs.past| && jobs.past[v].Some? :: jobs.past[v].value.uid < jobs.next)
    && (forall v, w | 0 <= v < |jobs.past| && 0 <= w < |jobs.past| && jobs.past[v].Some? && jobs.past[w].Some?
                      && jobs.past[v].value.uid == jobs.past[w].value.uid ::
          jobs.past[v].value.payload == jobs.past[w].value.payload)
  }

  /** The slot has held a Job of this UID and attempt. */
  ghost predicate Known(jobs: J.State, c: Charge) {
    exists v :: 0 <= v < |jobs.past| && jobs.past[v].Some? && InSlot(jobs.past[v]) == c
  }

  lemma KnownAgree(jobs: J.State, c: Charge, d: Charge)
    requires JobsSound(jobs) && Known(jobs, c) && Known(jobs, d) && c.uid == d.uid
    ensures c == d
  {
  }

  /** The Job in the slot is the one before, or new. */
  lemma SlotIsSameOrNew(s: J.State, a: J.Action)
    ensures var t := J.Apply(s, a);
      && s.next <= t.next
      && (t.slot.None? || t.slot == s.slot || (t.slot.value.uid == s.next && t.next == s.next + 1)
          || (s.slot.Some? && s.slot.value.uid == t.slot.value.uid && s.slot.value.payload == t.slot.value.payload))
  {
    hide J.Keep, J.Terminal;
  }

  lemma SlotStepKeepsJobs(s: J.State, a: J.Action)
    requires JobsSound(s)
    ensures JobsSound(J.Apply(s, a)) && s.past <= J.Apply(s, a).past
  {
    J.StepAdvances(s, a);
    SlotIsSameOrNew(s, a);
    hide J.Apply, J.Succession;
  }

  lemma KnownStays(jobs: J.State, jobs': J.State, c: Charge)
    requires Known(jobs, c) && jobs.past <= jobs'.past
    ensures Known(jobs', c)
  {
    var v :| 0 <= v < |jobs.past| && jobs.past[v].Some? && InSlot(jobs.past[v]) == c;
    assert jobs'.past[v] == jobs.past[v];
  }

  // ---- what every run keeps ---------------------------------------------------------------------

  ghost predicate RecordSound(jobs: J.State, r: Record) {
    && Sound(r.entry)
    && (r.entry.phase == Ready ==> r.entry.retries == 0)
    && (r.entry.phase == Deploying ==>
          r.culprit.Some? && r.culprit.value.attempt == r.entry.retries && Known(jobs, r.culprit.value))
  }

  /** A draft keeps the retries of what was read, adds one with its blame, or is ready. A Job
      that is blamed carries the attempt that was read. */
  ghost predicate DraftSound(jobs: J.State, base: Record, d: Draft) {
    && RecordSound(jobs, d.record)
    && var (was, now) := (base.entry.retries, d.record.entry.retries);
    && match d.blame
      case None => d.record.entry.phase == Ready || now == was
      case Some(ByJob(c)) => d.record.entry.phase != Ready && now == was + 1 && c.attempt == was && Known(jobs, c)
      case Some(ByRefusal) => d.record.entry.phase != Ready && now == was + 1
  }

  ghost predicate Inv(s: Account) {
    && JobsSound(s.jobs) && s.versions != []
    && (forall v | 0 <= v < |s.versions| :: RecordSound(s.jobs, s.versions[v]))
    && (s.draft.Some? ==>
          s.draft.value.read < |s.versions| && DraftSound(s.jobs, s.versions[s.draft.value.read], s.draft.value))
  }

  lemma SlotKeepsInv(s: Account, a: J.Action)
    requires Inv(s)
    ensures Inv(Apply(s, Slot(a)))
  {
    SlotStepKeepsJobs(s.jobs, a);
    hide J.Apply, Sound, Known, JobsSound;
    forall c | Known(s.jobs, c) ensures Known(J.Apply(s.jobs, a), c) { KnownStays(s.jobs, J.Apply(s.jobs, a), c); }
  }

  /** What observe answered for came from a Job of this very attempt. */
  lemma WitnessIsThisAttempt(jobs: J.State, r: Record, c: ComponentSpec, options: string, phase: J.Phase)
    requires JobsSound(jobs) && !IsShared(c) && JobServer.Witness(jobs.slot, PayloadOf(r.entry, c, options), phase)
    ensures InSlot(jobs.slot).attempt == r.entry.retries && Known(jobs, InSlot(jobs.slot))
  {
    hide J.Terminal;
    assert jobs.past[|jobs.past| - 1] == jobs.slot;
  }

  lemma MoveAddsOne(w: Work, e: Entry, c: ComponentSpec, a: Answer, timeout: Limit)
    requires Sound(e) && Fits(w, e, c, a) && !IsShared(c) && w != Adoption && (e.phase == Ready ==> e.retries == 0)
    ensures var f := Move(w, e, c, a, timeout);
      && (f.phase == Ready ==> f.retries == 0)
      && (f.phase != Ready ==> f.retries == e.retries + if Blames(w, e, c, a, timeout) then 1 else 0)
      && (f.phase == Deploying ==> e.phase == Deploying || (w == Observation && a.observed.JobSucceeded?))
  {
    assert Wrap32(e.retries + 1) == e.retries + 1;
    hide Overdue, Wrap32;
  }

  lemma DraftIsSound(jobs: J.State, v: nat, r: Record, c: ComponentSpec, options: string, a: Answer, timeout: Limit)
    requires JobsSound(jobs) && RecordSound(jobs, r) && !IsShared(c)
    requires Truthful(jobs.slot, PayloadOf(r.entry, c, options), a.observed)
    ensures DraftSound(jobs, r, Drafted(v, r, jobs.slot, c, a, timeout))
  {
    var w := WorkAt(r.entry.phase);
    MoveIsLawful(w, r.entry, c, a, timeout);
    MoveAddsOne(w, r.entry, c, a, timeout);
    if w == Observation && (a.observed.JobSucceeded? || a.observed.JobFailed?) {
      WitnessIsThisAttempt(jobs, r, c, options, if a.observed.JobFailed? then J.Failed else J.Succeeded);
    }
    assert Move(Adoption, r.entry, c, a, timeout) == r.entry;
    hide Move, Lawful, Sound, Known, JobsSound, Truthful, Overdue, PayloadOf;
  }

  lemma LandKeepsInv(s: Account, a: Action)
    requires Inv(s) && a.Land?
    ensures Inv(Apply(s, a))
  {
    hide RecordSound, JobsSound, Known;
    if Sent(s, a) { assert RecordSound(s.jobs, s.draft.value.record); }
  }

  lemma StepKeepsInv(s: Account, a: Action)
    requires Inv(s) && Possible(s, a) && Helm(a)
    ensures Inv(Apply(s, a))
  {
    match a {
      case Slot(step) => SlotKeepsInv(s, step);
      case Look(v, c, options, answer, timeout) => DraftIsSound(s.jobs, v, s.versions[v], c, options, answer, timeout);
      case Land(_, _) => LandKeepsInv(s, a);
      case Generation => FreshIsSound(s.jobs, Current(s).entry.name);
    }
    hide RecordSound, DraftSound, JobsSound, Drafted, J.Apply, Landed, Fresh;
  }

  lemma FreshIsSound(jobs: J.State, name: string)
    ensures RecordSound(jobs, Fresh(name))
  {
  }

  lemma StartIsSound(name: string)
    ensures Inv(Start(name))
  {
    FreshIsSound(J.INITIAL, name);
  }

  // ---- the balance ----------------------------------------------------------------------------

  /** The retries on the server are exactly what is charged. */
  predicate Even(s: Account) {
    s.versions != [] && Current(s).entry.retries == |s.charges| + s.refusals
  }

  /** A list lands from a read whose retry count is not the one on the server, and does not make
      the component ready. */
  predicate Dated(s: Account, a: Action) {
    && Sent(s, a) && s.draft.value.record.entry.phase != Ready
    && s.versions[s.draft.value.read].entry.retries != Current(s).entry.retries
  }

  /** A step unbalances retries and charges exactly when it is such a landing. */
  lemma BalanceIsLostExactlyWhen(s: Account, a: Action)
    requires Inv(s) && Even(s)
    ensures Even(Apply(s, a)) <==> !Dated(s, a)
  {
    hide J.Apply, Drafted, JobsSound, Known, Sound;
    if Sent(s, a) {
      var d := s.draft.value;
      assert DraftSound(s.jobs, s.versions[d.read], d);
      assert Current(Landed(s, d)) == d.record;
    }
  }

  ghost predicate NeverDated(s: Account, run: seq<Action>)
    decreases |run|
  {
    run == [] || (!Dated(s, run[0]) && NeverDated(Apply(s, run[0]), run[1..]))
  }

  ghost predicate EvenThroughout(s: Account, run: seq<Action>)
    decreases |run|
  {
    Even(s) && (run == [] || EvenThroughout(Apply(s, run[0]), run[1..]))
  }

  /** Over any run of a Helm component, however old the reads: the retries on the server are what
      is charged at every time, exactly when no such list lands. */
  lemma {:induction false} BooksBalanceExactlyWhen(s: Account, run: seq<Action>)
    requires Inv(s) && Even(s) && Legal(s, run) && forall a | a in run :: Helm(a)
    ensures EvenThroughout(s, run) <==> NeverDated(s, run)
    decreases |run|
  {
    hide Inv, Apply, Possible, Even, Dated;
    if run != [] {
      var t := Apply(s, run[0]);
      BalanceIsLostExactlyWhen(s, run[0]);
      StepKeepsInv(s, run[0]);
      if Even(t) {
        BooksBalanceExactlyWhen(t, run[1..]);
      } else {
        assert !EvenThroughout(t, run[1..]);
      }
    }
  }

  // ---- no Job is charged twice -------------------------------------------------------------------

  predicate NoJobTwice(charges: seq<Charge>) {
    forall i, j | 0 <= i < j < |charges| :: charges[i].uid != charges[j].uid
  }

  /** Everybody charged carried an attempt below the present one. */
  ghost predicate Settled(s: Account) {
    && NoJobTwice(s.charges) && s.versions != []
    && (forall c | c in s.charges :: Known(s.jobs, c) && c.attempt < Current(s).entry.retries)
  }

  lemma ChargeOnce(s: Account, c: Charge)
    requires Settled(s) && JobsSound(s.jobs) && Known(s.jobs, c) && c.attempt >= Current(s).entry.retries
    ensures NoJobTwice(s.charges + [c])
  {
    hide Known, JobsSound;
    forall d | d in s.charges ensures d.uid != c.uid {
      if d.uid == c.uid { KnownAgree(s.jobs, c, d); }
    }
  }

  lemma LandedIsSettled(s: Account, a: Action)
    requires Inv(s) && Settled(s) && Sent(s, a) && !Dated(s, a)
    ensures Settled(Landed(s, s.draft.value))
  {
    hide JobsSound, Known, Sound;
    var d := s.draft.value;
    assert DraftSound(s.jobs, s.versions[d.read], d);
    var t := Landed(s, d);
    assert Current(t) == d.record;
    if d.record.entry.phase != Ready && d.blame.Some? && d.blame.value.ByJob? {
      ChargeOnce(s, d.blame.value.charge);
    }
  }

  lemma StepKeepsSettled(s: Account, a: Action)
    requires Inv(s) && Settled(s) && !Dated(s, a)
    ensures Settled(Apply(s, a))
  {
    if a.Slot? {
      SlotStepKeepsJobs(s.jobs, a.step);
      hide J.Apply, Known;
      forall c | c in s.charges ensures Known(J.Apply(s.jobs, a.step), c) {
        KnownStays(s.jobs, J.Apply(s.jobs, a.step), c);
      }
    } else if Sent(s, a) {
      LandedIsSettled(s, a);
      hide Landed, Settled;
    } else {
      hide Drafted, Known;
    }
  }

  lemma {:induction false} RunKeepsSettled(s: Account, run: seq<Action>)
    requires Inv(s) && Settled(s) && Legal(s, run) && NeverDated(s, run) && forall a | a in run :: Helm(a)
    ensures Settled(Execute(s, run))
    decreases |run|
  {
    hide Inv, Apply, Possible, Settled, Dated;
    if run != [] {
      StepKeepsInv(s, run[0]);
      StepKeepsSettled(s, run[0]);
      RunKeepsSettled(Apply(s, run[0]), run[1..]);
    }
  }

  lemma {:induction false} EvenAtTheEnd(s: Account, run: seq<Action>)
    requires EvenThroughout(s, run)
    ensures Even(Execute(s, run))
    decreases |run|
  {
    hide Even, Apply;
    if run != [] { EvenAtTheEnd(Apply(s, run[0]), run[1..]); }
  }

  /** While the books balance, no Helm deploy Job is charged twice between two resets, by failure or
      by a readiness timeout: however many passes repeat because their status was lost, and however
      old the versions they read, as long as what they land shows the retries on the server. */
  lemma NoJobIsChargedTwice(name: string, run: seq<Action>)
    requires Legal(Start(name), run) && NeverDated(Start(name), run) && forall a | a in run :: Helm(a)
    ensures var s := Execute(Start(name), run);
      NoJobTwice(s.charges) && Even(s)
  {
    StartIsSound(name);
    hide Inv, Apply, Possible, Dated, EvenThroughout, Legal, NeverDated, Execute;
    RunKeepsSettled(Start(name), run);
    BooksBalanceExactlyWhen(Start(name), run);
    EvenAtTheEnd(Start(name), run);
  }

  /** Every pass reads the version last persisted. */
  ghost predicate UpToDate(s: Account, run: seq<Action>)
    decreases |run|
  {
    run == [] || ((run[0].Look? ==> run[0].version == |s.versions| - 1) && UpToDate(Apply(s, run[0]), run[1..]))
  }

  /** Then no landing is dated: passes are serialized, so what was read is current until it lands. */
  lemma {:induction false} UpToDateIsNeverDated(s: Account, run: seq<Action>)
    requires UpToDate(s, run) && (s.draft.Some? ==> s.draft.value.read == |s.versions| - 1)
    ensures NeverDated(s, run)
    decreases |run|
  {
    if run != [] {
      var t := Apply(s, run[0]);
      assert t.draft.Some? ==> t.draft.value.read == |t.versions| - 1 by { hide Move, Blames, J.Apply; }
      hide Apply;
      UpToDateIsNeverDated(t, run[1..]);
    }
  }

  lemma {:induction false} RunConcat(s: Account, a: seq<Action>, b: seq<Action>)
    requires Legal(s, a) && Legal(Execute(s, a), b)
    ensures Legal(s, a + b) && Execute(s, a + b) == Execute(Execute(s, a), b)
    decreases |a|
  {
    hide Apply, Possible;
    if a == [] {
      assert a + b == b;
    } else {
      assert (a + b)[1..] == a[1..] + b;
      RunConcat(Apply(s, a[0]), a[1..], b);
    }
  }
}
