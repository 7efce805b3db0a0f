/**
  How one Job slot -- the Job of one namespace, release and operation -- is submitted to,
  observed and replaced. The Deployer and the Provisioner run the same protocol and differ
  in the payload identity alone.
 */
module JobProtocol {
  import opened Wrappers

  datatype ConditionType = Complete | JobFailed | Other

  datatype Condition = Condition(kind: ConditionType, isTrue: bool)

  datatype Phase = Running | Succeeded | Failed

  /** What a Job is told apart by: the Deployer's options, the attempt among them, or the digest
      of the Provisioner's, which have no attempt. */
  datatype Payload = Payload(attempt: int, options: string)

  datatype Job = Job(uid: nat, payload: Payload, conditions: seq<Condition>, deleting: bool, managed: bool)

  /** The first true Complete or Failed condition decides. */
  function Terminal(conditions: seq<Condition>): Phase {
    if conditions == [] then Running
    else if conditions[0].isTrue && conditions[0].kind.Complete? then Succeeded
    else if conditions[0].isTrue && conditions[0].kind.JobFailed? then Failed
    else Terminal(conditions[1..])
  }

  predicate Decides(c: Condition) {
    c.isTrue && (c.kind.Complete? || c.kind.JobFailed?)
  }

  /** A Job runs exactly while no condition decides; else the first that does tells how it ended. */
  lemma {:induction false} TerminalMeans(conditions: seq<Condition>) returns (i: nat)
    ensures Terminal(conditions) == Running <==> forall c | c in conditions :: !Decides(c)
    ensures Terminal(conditions) != Running ==>
              && i < |conditions| && Decides(conditions[i]) && (forall j | 0 <= j < i :: !Decides(conditions[j]))
              && (Terminal(conditions) == Succeeded <==> conditions[i].kind.Complete?)
              && (Terminal(conditions) == Failed <==> conditions[i].kind.JobFailed?)
  {
    i := 0;
    if conditions != [] && !Decides(conditions[0]) {
      i := TerminalMeans(conditions[1..]);
      i := i + 1;
      assert conditions == [conditions[0]] + conditions[1..];
      assert forall j | 0 < j < |conditions| :: conditions[j] == conditions[1..][j - 1];
    }
  }

  method TerminalPhase(conditions: seq<Condition>) returns (phase: Phase)
    ensures phase == Terminal(conditions)
  {
    for i := 0 to |conditions|
      invariant Terminal(conditions) == Terminal(conditions[i..])
    {
      if conditions[i].isTrue {
        match conditions[i].kind {
          case Complete => return Succeeded;
          case JobFailed => return Failed;
          case Other =>
        }
      }
    }
    return Running;
  }

  /** The Job controller only adds conditions, so a Job that has ended stays as it ended. */
  lemma {:induction false} TerminalIsPermanent(conditions: seq<Condition>, more: seq<Condition>)
    requires conditions <= more && Terminal(conditions) != Running
    ensures Terminal(more) == Terminal(conditions)
  {
    if conditions != [] && Terminal(conditions) == Terminal(conditions[1..]) {
      TerminalIsPermanent(conditions[1..], more[1..]);
    }
  }

  predicate SucceededWith(j: Job, payload: Payload) {
    Terminal(j.conditions) == Succeeded && j.payload == payload
  }

  /** A Job that submit leaves alone: on its way out, at work, or done with this payload. */
  predicate Keep(j: Job, payload: Payload) {
    j.deleting || Terminal(j.conditions) == Running || SucceededWith(j, payload)
  }

  /** Where a submit is: named after its last answer. */
  datatype Stage =
    | Begun
    | CachedReplaceable(existing: Job)
    | LiveReplaceable(live: Job)
    | NothingCached
    | NameTaken
    | Finished(ok: bool)

  datatype Submit = Submit(payload: Payload, stage: Stage)

  datatype Deletion = Deletion(job: Job, payload: Payload)

  /** past holds every content the slot had, which is what a cache may still serve;
      deletions is history. */
  datatype State = State(
    slot: Option<Job>,
    next: nat,
    past: seq<Option<Job>>,
    submits: map<nat, Submit>,
    deletions: seq<Deletion>)

  datatype Action =
    | Begin(pid: nat, payload: Payload)
    | ReadCache(pid: nat, version: nat)
    | Proceed(pid: nat)
    | Fail(pid: nat)
    | LoseReply(pid: nat)
    | Drop(pid: nat)
    | Report(condition: Condition)
    | Collect
    | ForeignDelete
    | ForeignCreate(payload: Payload, managed: bool)

  function Put(s: State, slot: Option<Job>): State {
    s.(slot := slot, past := s.past + [slot])
  }

  function At(s: State, pid: nat, stage: Stage): State
    requires pid in s.submits
  {
    s.(submits := s.submits[pid := s.submits[pid].(stage := stage)])
  }

  /** The first read goes to the cache: any content the slot has had, or has. */
  function CacheCall(s: State, pid: nat, version: nat): State
    requires pid in s.submits
  {
    var seen := if version < |s.past| then s.past[version] else None;
    match seen
    case None => At(s, pid, NothingCached)
    case Some(j) => At(s, pid, if Keep(j, s.submits[pid].payload) then Finished(true) else CachedReplaceable(j))
  }

  function LiveCall(s: State, pid: nat, existing: Job): State
    requires pid in s.submits
  {
    match s.slot
    case None => At(s, pid, Finished(true))
    case Some(j) =>
      if j.uid != existing.uid || Keep(j, s.submits[pid].payload) then At(s, pid, Finished(true))
      else At(s, pid, LiveReplaceable(j))
  }

  /** Foreground deletion, guarded by the UID. */
  function DeleteCall(s: State, pid: nat, live: Job): State
    requires pid in s.submits
  {
    if s.slot.None? || s.slot.value.uid != live.uid then At(s, pid, Finished(true))
    else
      var t := Put(s, Some(s.slot.value.(deleting := true)));
      At(t.(deletions := t.deletions + [Deletion(s.slot.value, s.submits[pid].payload)]), pid, Finished(true))
  }

  function CreateCall(s: State, pid: nat): State
    requires pid in s.submits
  {
    if s.slot.Some? then At(s, pid, NameTaken)
    else
      var job := Job(s.next, s.submits[pid].payload, [], false, true);
      At(Put(s.(next := s.next + 1), Some(job)), pid, Finished(true))
  }

  /** The name is taken: fine, unless by a Job that is not Petri's. */
  function TakenCall(s: State, pid: nat): State
    requires pid in s.submits
  {
    At(s, pid, Finished(s.slot.None? || s.slot.value.managed))
  }

  function Call(s: State, pid: nat): State
    requires pid in s.submits
  {
    match s.submits[pid].stage
    case CachedReplaceable(existing) => LiveCall(s, pid, existing)
    case LiveReplaceable(live) => DeleteCall(s, pid, live)
    case NothingCached => CreateCall(s, pid)
    case NameTaken => TakenCall(s, pid)
    case _ => s
  }

  /** The Job controller, the garbage collector and everybody else. */
  function Surroundings(s: State, a: Action): State {
    match a
    case Report(condition) =>
      if s.slot.None? then s
      else Put(s, Some(s.slot.value.(conditions := s.slot.value.conditions + [condition])))
    case Collect => if s.slot.Some? && s.slot.value.deleting then Put(s, None) else s
    case ForeignDelete => if s.slot.None? then s else Put(s, Some(s.slot.value.(deleting := true)))
    case ForeignCreate(payload, managed) =>
      if s.slot.Some? then s
      else Put(s.(next := s.next + 1), Some(Job(s.next, payload, [], false, managed)))
    case _ => s
  }

  function Apply(s: State, a: Action): State {
    match a
    case Begin(pid, payload) => if pid in s.submits then s else s.(submits := s.submits[pid := Submit(payload, Begun)])
    case ReadCache(pid, version) =>
      if pid in s.submits && s.submits[pid].stage.Begun? then CacheCall(s, pid, version) else s
    case Proceed(pid) => if pid in s.submits then Call(s, pid) else s
    case Fail(pid) => if pid in s.submits then At(s, pid, Finished(false)) else s
    case LoseReply(pid) => if pid in s.submits then At(Call(s, pid), pid, Finished(false)) else s
    case Drop(pid) => s.(submits := s.submits - {pid})
    case _ => Surroundings(s, a)
  }

  function Execute(s: State, run: seq<Action>): State
    decreases |run|
  {
    if run == [] then s else Execute(Apply(s, run[0]), run[1..])
  }

  const INITIAL := State(None, 0, [None], map[], [])

  /** `later` is the Job `earlier` at a later time. */
  predicate Follows(earlier: Job, later: Job) {
    earlier.uid == later.uid ==>
      earlier.payload == later.payload && earlier.conditions <= later.conditions
  }

  ghost predicate SubmitSound(s: State, p: Submit) {
    match p.stage
    case CachedReplaceable(j) => j.uid < s.next
    case LiveReplaceable(j) =>
      j.uid < s.next && Terminal(j.conditions) != Running && !SucceededWith(j, p.payload)
      && (s.slot.Some? ==> Follows(j, s.slot.value))
    case _ => true
  }

  /** What submit may delete. */
  predicate Harmless(d: Deletion) {
    Terminal(d.job.conditions) != Running && !SucceededWith(d.job, d.payload)
  }

  ghost predicate Inv(s: State) {
    && (s.slot.Some? ==> s.slot.value.uid < s.next)
    && (forall v | 0 <= v < |s.past| && s.past[v].Some? :: s.past[v].value.uid < s.next)
    && (forall pid | pid in s.submits :: SubmitSound(s, s.submits[pid]))
    && (forall d | d in s.deletions :: Harmless(d))
  }

  /** The slot holds the same Job later on, or a new one, or none. */
  ghost predicate Onwards(s: State, t: State) {
    && s.next <= t.next
    && (t.slot.Some? ==>
      && t.slot.value.uid < t.next
      && (t.slot.value.uid >= s.next
          || (s.slot.Some? && s.slot.value.uid == t.slot.value.uid && Follows(s.slot.value, t.slot.value))))
  }

  lemma SubmitStaysSound(s: State, t: State, p: Submit)
    requires SubmitSound(s, p) && Onwards(s, t)
    ensures SubmitSound(t, p)
  {
    hide Terminal, SucceededWith;
  }

  ghost predicate DeletesHarmless(s: State, t: State) {
    t.deletions == s.deletions
    || (t.deletions != [] && t.deletions == s.deletions + [t.deletions[|t.deletions| - 1]]
        && Harmless(t.deletions[|t.deletions| - 1]))
  }

  /** What keeps the invariant: the slot goes on, at most one submit moves, and stays sound. */
  lemma KeepsInv(s: State, t: State, pid: nat)
    requires Inv(s) && Onwards(s, t) && DeletesHarmless(s, t)
    requires t.past == s.past || t.past == s.past + [t.slot]
    requires forall q | q in t.submits && q != pid :: q in s.submits && t.submits[q] == s.submits[q]
    requires pid in t.submits ==> SubmitSound(t, t.submits[pid])
    ensures Inv(t)
  {
    hide Harmless;
    forall q | q in t.submits ensures SubmitSound(t, t.submits[q]) {
      if q != pid { SubmitStaysSound(s, t, s.submits[q]); }
    }
  }

  lemma LiveCallKeepsInv(s: State, pid: nat, existing: Job)
    requires Inv(s) && pid in s.submits
    ensures Inv(LiveCall(s, pid, existing))
  {
    hide Inv, Harmless, Terminal, SucceededWith;
    SlotIsIssued(s);
    KeepsInv(s, LiveCall(s, pid, existing), pid);
  }

  lemma DeleteCallKeepsInv(s: State, pid: nat)
    requires Inv(s) && pid in s.submits && s.submits[pid].stage.LiveReplaceable?
    ensures Inv(DeleteCall(s, pid, s.submits[pid].stage.live))
  {
    var live := s.submits[pid].stage.live;
    assert SubmitSound(s, s.submits[pid]);
    if s.slot.Some? && s.slot.value.uid == live.uid { TerminalIsPermanent(live.conditions, s.slot.value.conditions); }
    SlotIsIssued(s);
    hide Inv, Terminal;
    KeepsInv(s, DeleteCall(s, pid, live), pid);
  }

  lemma SlotIsIssued(s: State)
    requires Inv(s)
    ensures Onwards(s, s)
  {
  }

  lemma CreateCallKeepsInv(s: State, pid: nat)
    requires Inv(s) && pid in s.submits
    ensures Inv(CreateCall(s, pid)) && Inv(TakenCall(s, pid))
  {
    SlotIsIssued(s);
    hide Inv, Harmless, Terminal, SucceededWith;
    KeepsInv(s, CreateCall(s, pid), pid);
    KeepsInv(s, TakenCall(s, pid), pid);
  }

  lemma CallKeepsInv(s: State, pid: nat)
    requires Inv(s) && pid in s.submits
    ensures Inv(Call(s, pid))
  {
    hide Inv, LiveCall, DeleteCall, CreateCall, TakenCall;
    match s.submits[pid].stage {
      case CachedReplaceable(existing) => LiveCallKeepsInv(s, pid, existing);
      case LiveReplaceable(_) => DeleteCallKeepsInv(s, pid);
      case NothingCached => CreateCallKeepsInv(s, pid);
      case NameTaken => CreateCallKeepsInv(s, pid);
      case Begun =>
      case Finished(_) =>
    }
  }

  lemma OwnStepKeepsInv(s: State, a: Action)
    requires Inv(s) && (a.Begin? || a.ReadCache? || a.Fail? || a.Drop?)
    ensures Inv(Apply(s, a))
  {
    SlotIsIssued(s);
    assert forall v | 0 <= v < |s.past| && s.past[v].Some? :: s.past[v].value.uid < s.next;
    hide Inv, Harmless, Terminal, SucceededWith, Keep;
    var t := Apply(s, a);
    if t != s { KeepsInv(s, t, a.pid); }
  }

  lemma SurroundingsKeepInv(s: State, a: Action)
    requires Inv(s)
    ensures Inv(Surroundings(s, a))
  {
    SlotIsIssued(s);
    var t := Surroundings(s, a);
    forall pid | pid in t.submits ensures SubmitSound(t, t.submits[pid]) {
      assert Onwards(s, t);
      SubmitStaysSound(s, t, s.submits[pid]);
    }
    hide Inv, Harmless, Terminal, SucceededWith, SubmitSound;
    KeepsInv(s, t, 0);
  }

  lemma StepKeepsInv(s: State, a: Action)
    requires Inv(s)
    ensures Inv(Apply(s, a))
  {
    hide Inv, Call, CacheCall, Surroundings;
    if a.Proceed? {
      if a.pid in s.submits { CallKeepsInv(s, a.pid); }
    } else if a.LoseReply? {
      if a.pid in s.submits {
        CallKeepsInv(s, a.pid);
        CallKeepsSubmits(s, a.pid);
        OwnStepKeepsInv(Call(s, a.pid), Fail(a.pid));
      }
    } else if a.Begin? || a.ReadCache? || a.Fail? || a.Drop? {
      OwnStepKeepsInv(s, a);
    } else {
      SurroundingsKeepInv(s, a);
    }
  }

  lemma CallKeepsSubmits(s: State, pid: nat)
    requires pid in s.submits
    ensures Call(s, pid).submits.Keys == s.submits.Keys
  {
    hide Keep;
  }

  lemma {:induction false} RunKeepsInv(s: State, run: seq<Action>)
    requires Inv(s)
    ensures Inv(Execute(s, run))
    decreases |run|
  {
    if run != [] {
      StepKeepsInv(s, run[0]);
      RunKeepsInv(Apply(s, run[0]), run[1..]);
    }
  }

  /** However stale the caches: no submit ever deletes a Job that runs, or one that already
      succeeded with the payload it submits. */
  lemma ReplacementIsSafe(run: seq<Action>)
    ensures forall d | d in Execute(INITIAL, run).deletions :: Harmless(d)
  {
    RunKeepsInv(INITIAL, run);
  }

  /** From one content of the slot to the next: the same Job, or an end and a beginning. */
  predicate Succession(before: Option<Job>, after: Option<Job>) {
    match (before, after)
    case (Some(j), Some(k)) => j.uid == k.uid && Follows(j, k) && (j.deleting ==> k.deleting)
    case (Some(j), None) => j.deleting
    case (None, _) => true
  }

  ghost predicate Orderly(s: State) {
    && |s.past| > 0 && s.past[|s.past| - 1] == s.slot
    && (forall v | 0 <= v < |s.past| - 1 :: Succession(s.past[v], s.past[v + 1]))
  }

  /** The slot is as it was, or its next content follows in order. */
  ghost predicate Advances(s: State, t: State) {
    (t.past == s.past && t.slot == s.slot) || (t.past == s.past + [t.slot] && Succession(s.slot, t.slot))
  }

  lemma AdvancesInOrder(s: State, t: State)
    requires Orderly(s) && Advances(s, t)
    ensures Orderly(t) && s.past <= t.past
  {
    hide Succession;
    forall v | 0 <= v < |t.past| - 1 ensures Succession(t.past[v], t.past[v + 1]) {
      if v < |s.past| - 1 { assert Succession(s.past[v], s.past[v + 1]); }
    }
  }

  lemma CallAdvances(s: State, pid: nat)
    requires pid in s.submits
    ensures Advances(s, Call(s, pid))
  {
    hide Keep;
  }

  lemma StepAdvances(s: State, a: Action)
    ensures Advances(s, Apply(s, a))
  {
    if (a.Proceed? || a.LoseReply?) && a.pid in s.submits { CallAdvances(s, a.pid); }
    hide Call, Keep;
  }

  lemma StepKeepsOrder(s: State, a: Action)
    requires Orderly(s)
    ensures Orderly(Apply(s, a)) && s.past <= Apply(s, a).past
  {
    StepAdvances(s, a);
    hide Apply, Orderly, Advances;
    AdvancesInOrder(s, Apply(s, a));
  }

  lemma {:induction false} RunKeepsOrder(s: State, run: seq<Action>)
    requires Orderly(s)
    ensures Orderly(Execute(s, run)) && s.past <= Execute(s, run).past
    decreases |run|
  {
    hide Apply, Orderly;
    if run != [] {
      StepKeepsOrder(s, run[0]);
      RunKeepsOrder(Apply(s, run[0]), run[1..]);
    }
  }

  /** The order of succession: a new Job enters a slot that was emptied, the slot is emptied of
      a Job that was being deleted only, and until then it is the same Job, at a later time. */
  lemma JobsSucceedInOrder(run: seq<Action>, v: nat)
    requires v + 1 < |Execute(INITIAL, run).past|
    ensures var past := Execute(INITIAL, run).past; Succession(past[v], past[v + 1])
  {
    RunKeepsOrder(INITIAL, run);
  }
}
