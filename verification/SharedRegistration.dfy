/**
  registerConsumer and the drain as the operator runs them: one API call after another,
  with other actors between any two calls. Each call is a step of the state machine of
  SharedAdmission, so what is proved about its runs holds of this code.
 */
module SharedRegistration {
  import opened Wrappers
  import opened Turns
  import opened SharedAdmission
  import opened DrainBarrier

  predicate SameWorld(s: State, t: State) {
    t.clock == s.clock && t.component == s.component && t.namespaces == s.namespaces
  }

  predicate LeaseFree(s: State) {
    s.lease.None? || Expired(s.lease.value, s.clock)
  }

  /** What a registration comes to once it holds the lease, when nobody else acts. */
  function Joined(rules: Rules, s: State, target: string): Verdict {
    if s.component.None? then Error
    else if !Open(s.component) then NotReady
    else if target !in s.namespaces then Error
    else if rules.max > 0 && !s.namespaces[target].labelled && |Consumers(s.namespaces)| >= rules.max then AtCapacity
    else Admitted(s.component.value.uid, s.namespaces[target].uid)
  }

  /** When a registration that holds the lease is at capacity: never without a maximum, and never for a
      namespace that is a consumer already; and what is admitted is the component there is, for the
      namespace there is. */
  lemma OutcomesOfJoining(rules: Rules, s: State, target: string)
    ensures var out := Joined(rules, s, target);
      && (out.AtCapacity? ==> rules.max > 0 && target !in Consumers(s.namespaces))
      && (Open(s.component) && target in s.namespaces ==>
            (out.AtCapacity? <==>
               rules.max > 0 && target !in Consumers(s.namespaces) && |Consumers(s.namespaces)| >= rules.max)
            && (!out.AtCapacity? ==> out == Admitted(s.component.value.uid, s.namespaces[target].uid)))
      && (s.component.Some? && !Open(s.component) <==> out.NotReady?)
      && (out.Admitted? ==> Open(s.component) && target in s.namespaces)
  {
    assert target in Consumers(s.namespaces) <==> target in s.namespaces && s.namespaces[target].labelled;
  }

  /** A drain says yes only to a component that is being deleted, and has no consumers. */
  predicate Drainable(s: State, uid: nat) {
    && s.component.Some? && s.component.value.uid == uid && s.component.value.deleting
    && Consumers(s.namespaces) == {}
  }

  predicate Mentions(a: Action, pid: nat) {
    match a
    case Spawn(q, _) => q == pid
    case Stamp(q) => q == pid
    case Proceed(q) => q == pid
    case Fail(q) => q == pid
    case LoseReply(q) => q == pid
    case Release(q) => q == pid
    case LeaveLease(q) => q == pid
    case Crash(q) => q == pid
    case _ => false
  }

  predicate Foreign(run: seq<Action>, pid: nat) {
    forall a | a in run :: !Mentions(a, pid)
  }

  ghost predicate SameProcess(s: State, t: State, pid: nat) {
    (pid in s.processes <==> pid in t.processes) && (pid in s.processes ==> s.processes[pid] == t.processes[pid])
  }

  lemma CallMovesOne(rules: Rules, s: State, q: nat, pid: nat)
    requires q in s.processes && q != pid
    ensures SameProcess(s, Call(rules, s, q), pid)
  {
    hide Consumers, Expired, InTime, Open;
  }

  lemma ForeignStep(rules: Rules, s: State, a: Action, pid: nat)
    requires !Mentions(a, pid)
    ensures SameProcess(s, Apply(rules, s, a), pid)
  {
    if (a.Proceed? || a.LoseReply?) && a.pid in s.processes { CallMovesOne(rules, s, a.pid, pid); }
    hide Call;
  }

  /** Nobody else moves a process. */
  lemma {:induction false} ForeignRun(rules: Rules, s: State, run: seq<Action>, pid: nat)
    requires Foreign(run, pid)
    ensures SameProcess(s, Execute(rules, s, run), pid)
    decreases |run|
  {
    hide Apply;
    if run != [] {
      ForeignStep(rules, s, run[0], pid);
      ForeignRun(rules, Apply(rules, s, run[0]), run[1..], pid);
    }
  }

  lemma StepClock(rules: Rules, s: State, a: Action)
    ensures s.clock <= Apply(rules, s, a).clock
  {
    hide Consumers, Expired, InTime, Open;
  }

  /** Time only passes. */
  lemma {:induction false} RunClock(rules: Rules, s: State, run: seq<Action>)
    ensures s.clock <= Execute(rules, s, run).clock
    decreases |run|
  {
    hide Apply;
    if run != [] {
      StepClock(rules, s, run[0]);
      RunClock(rules, Apply(rules, s, run[0]), run[1..]);
    }
  }

  lemma {:induction false} ExecuteConcat(rules: Rules, s: State, a: seq<Action>, b: seq<Action>)
    ensures Execute(rules, s, a + b) == Execute(rules, Execute(rules, s, a), b)
    decreases |a|
  {
    hide Apply;
    if a == [] {
      assert a + b == b;
    } else {
      assert (a + b)[1..] == a[1..] + b;
      ExecuteConcat(rules, Apply(rules, s, a[0]), a[1..], b);
    }
  }

  /** The API server with everybody around it; log is the run so far. */
  class Cluster {
    const rules: Rules
    var state: State
    ghost var log: seq<Action>

    ghost predicate Valid()
      reads this
    {
      state == Execute(rules, INITIAL, log)
    }

    constructor (rules: Rules)
      ensures Valid() && log == [] && this.rules == rules
    {
      this.rules := rules;
      state := INITIAL;
      log := [];
    }

    method Do(a: Action)
      requires Valid()
      modifies this
      ensures Valid() && log == old(log) + [a] && state == Apply(rules, old(state), a)
    {
      hide Apply;
      ExecuteConcat(rules, INITIAL, log, [a]);
      state := Apply(rules, state, a);
      log := log + [a];
    }

    method Others(run: seq<Action>, pid: nat)
      requires Valid() && Foreign(run, pid)
      modifies this
      ensures Valid() && log == old(log) + run && SameProcess(old(state), state, pid)
      ensures run == [] ==> state == old(state)
      ensures old(state).clock <= state.clock
    {
      RunClock(rules, state, run);
      ExecuteConcat(rules, INITIAL, log, run);
      ForeignRun(rules, state, run, pid);
      state := Execute(rules, state, run);
      log := log + run;
    }

    /** One API call of process `pid`. `at` is the server it met, and `ok` says that the
        process got an answer; without one it gives up. */
    method Api(pid: nat, turn: Turn<Action>) returns (ok: bool, at: State)
      requires Valid() && Foreign(turn.before, pid) && pid in state.processes
      modifies this
      ensures old(state).clock <= state.clock
      ensures Valid() && old(log) + turn.before <= log
      ensures SameProcess(old(state), at, pid) && pid in state.processes
      ensures Still(turn) ==> ok && at == old(state)
      ensures ok ==> state == Apply(rules, at, Proceed(pid))
      ensures !ok ==> state.processes[pid] == old(state).processes[pid].(stage := Over(Error))
    {
      Others(turn.before, pid);
      at := state;
      ok := turn.reply.Answered?;
      StepClock(rules, state, Proceed(pid));
      StepClock(rules, state, Fail(pid));
      StepClock(rules, state, LoseReply(pid));
      match turn.reply {
        case Answered => Do(Proceed(pid));
        case Refused => Do(Fail(pid));
        case Lost => Do(LoseReply(pid));
      }
    }

    /** The deferred release: it deletes the lease, or leaves it to expire. */
    method Leave(pid: nat, turn: Turn<Action>)
      requires Valid() && Foreign(turn.before, pid)
      requires pid in state.processes && Leaving(state.processes[pid].stage)
      modifies this
      ensures Valid() && old(log) <= log
      ensures if old(state).processes[pid].stage.Over? then pid !in state.processes
              else pid in state.processes
                   && state.processes[pid] == old(state).processes[pid].(stage := Drained, lease := None)
      ensures old(state).admitted <= state.admitted && old(state).drained <= state.drained
      ensures Still(turn) ==> SameWorld(old(state), state)
    {
      Others(turn.before, pid);
      Do(if turn.reply.Answered? then Release(pid) else LeaveLease(pid));
      HistoryKept(rules, old(log), log);
    }
  }

  lemma HistoryKept(rules: Rules, before: seq<Action>, after: seq<Action>)
    requires before <= after
    ensures var s := Execute(rules, INITIAL, before); var t := Execute(rules, INITIAL, after);
      s.admitted <= t.admitted && s.drained <= t.drained
  {
    assert after == before + after[|before|..];
    ExecuteConcat(rules, INITIAL, before, after[|before|..]);
    RunKeepsHistory(rules, Execute(rules, INITIAL, before), after[|before|..]);
  }

  lemma {:induction false} RunKeepsHistory(rules: Rules, s: State, run: seq<Action>)
    ensures var t := Execute(rules, s, run); s.admitted <= t.admitted && s.drained <= t.drained
    decreases |run|
  {
    if run != [] {
      StepKeepsHistory(rules, s, run[0]);
      RunKeepsHistory(rules, Apply(rules, s, run[0]), run[1..]);
    }
  }

  lemma CallKeepsHistory(rules: Rules, s: State, pid: nat)
    requires pid in s.processes
    ensures var t := Call(rules, s, pid); s.admitted <= t.admitted && s.drained <= t.drained
  {
    hide Consumers, Expired, InTime, Open;
  }

  lemma StepKeepsHistory(rules: Rules, s: State, a: Action)
    ensures var t := Apply(rules, s, a); s.admitted <= t.admitted && s.drained <= t.drained
  {
    if (a.Proceed? || a.LoseReply?) && a.pid in s.processes { CallKeepsHistory(rules, s, a.pid); }
    hide Call;
  }

  ghost predicate Ready(c: Cluster, pid: nat, role: Role)
    reads c
  {
    c.Valid() && pid in c.state.processes && c.state.processes[pid].role == role
  }

  ghost predicate Undisturbed(env: nat -> Turn<Action>, pid: nat) {
    forall i :: Foreign(env(i).before, pid)
  }

  /** Reads the lease and deletes it when it has expired: true when the way is free, false
      when somebody holds it. */
  method ClearTheWay(c: Cluster, pid: nat, role: Role, env: nat -> Turn<Action>) returns (free: Result<bool, ()>)
    requires Ready(c, pid, role) && Undisturbed(env, pid) && c.state.processes[pid].stage.Starting?
    modifies c
    ensures Ready(c, pid, role) && old(c.log) <= c.log
    ensures c.state.processes[pid].stage ==
            if free.Err? then Over(Error) else if free.value then FoundNone else Over(NotReady)
    ensures Calm(env) ==> free == Ok(LeaseFree(old(c.state))) && SameWorld(old(c.state), c.state)
    ensures Calm(env) && LeaseFree(old(c.state)) ==> c.state.lease.None?
    ensures Calm(env) ==> c.state.processes[pid].started == old(c.state).processes[pid].started
  {
    hide RegisterCall, DrainCall, Execute, CreateLease, LostReply, Surroundings, ReleaseCall, Depart, Joined, Consumers;
    hide JudgeLease, DeleteExpired, Expired;
    c.Do(Stamp(pid));
    var ok, at := c.Api(pid, env(1));
    if !ok { return Err(()); }
    if at.lease.None? { return Ok(true); }
    free := DeleteIfExpired(c, pid, role, at.lease.value, env);
  }

  /** A lease that was read: it is deleted when it has expired, else it is respected. */
  method DeleteIfExpired(c: Cluster, pid: nat, role: Role, seen: Lease, env: nat -> Turn<Action>)
    returns (free: Result<bool, ()>)
    requires Ready(c, pid, role) && Undisturbed(env, pid) && c.state.processes[pid].stage == SawLease(seen)
    modifies c
    ensures Ready(c, pid, role) && old(c.log) <= c.log
    ensures c.state.processes[pid].stage ==
            if free.Err? then Over(Error) else if free.value then FoundNone else Over(NotReady)
    ensures free == Ok(true) ==> Expired(seen, c.state.clock)
    ensures Calm(env) && old(c.state).lease == Some(seen) ==>
              free == Ok(Expired(seen, old(c.state).clock)) && SameWorld(old(c.state), c.state)
              && (free.value ==> c.state.lease.None?)
              && c.state.processes[pid].started == old(c.state).processes[pid].started
  {
    hide RegisterCall, DrainCall, Execute, CreateLease, LostReply, Surroundings, ReleaseCall, Depart, Joined, Consumers;
    c.Others(env(2).before, pid);
    c.Do(Proceed(pid));
    if !c.state.processes[pid].stage.FoundExpired? { return Ok(false); }
    var ok, at := c.Api(pid, env(3));
    if !ok || c.state.processes[pid].stage.Over? { return Err(()); }
    return Ok(true);
  }

  /** Returns the lease this process created, None when somebody holds it, or an error. */
  method AcquireProvisionLease(c: Cluster, pid: nat, role: Role, env: nat -> Turn<Action>)
    returns (lease: Result<Option<Lease>, ()>)
    requires Ready(c, pid, role) && Undisturbed(env, pid) && c.state.processes[pid].stage.Starting?
    modifies c
    ensures Ready(c, pid, role) && old(c.log) <= c.log
    ensures lease.Ok? && lease.value.Some? ==>
              c.state.processes[pid].stage.Leased? && c.state.processes[pid].lease == lease.value
    ensures lease.Ok? && lease.value.None? ==> c.state.processes[pid].stage == Over(NotReady)
    ensures lease.Err? ==> c.state.processes[pid].stage == Over(Error)
    ensures Calm(env) && InTime(old(c.state).processes[pid], old(c.state).clock) ==>
              lease.Ok? && (lease.value.Some? <==> LeaseFree(old(c.state)))
              && SameWorld(old(c.state), c.state) && InTime(c.state.processes[pid], c.state.clock)
  {
    hide RegisterCall, DrainCall, Execute, ReadLease, JudgeLease, DeleteExpired, LostReply, Surroundings, ReleaseCall;
    hide Depart;
    hide Joined, Consumers, LeaseFree;
    var free := ClearTheWay(c, pid, role, env);
    if free.Err? { return Err(()); }
    if !free.value { return Ok(None); }
    var ok, at := c.Api(pid, env(4));
    if !ok { return Err(()); }
    match c.state.processes[pid].stage {
      case Leased => return Ok(c.state.processes[pid].lease);
      case Over(verdict) => return if verdict.NotReady? then Ok(None) else Err(());
    }
  }

  /** isConsumer, and the count when it is not one yet; None lets it go on. */
  method CheckCapacity(c: Cluster, pid: nat, target: string, uid: nat, env: nat -> Turn<Action>)
    returns (refused: Option<Verdict>)
    requires Ready(c, pid, Register(target)) && Undisturbed(env, pid)
    requires c.state.processes[pid].stage == Admissible(uid)
    modifies c
    ensures Ready(c, pid, Register(target)) && old(c.log) <= c.log
    ensures refused.Some? ==> refused.value.Error? || refused.value.AtCapacity?
    ensures c.state.processes[pid].stage == if refused.Some? then Over(refused.value) else Cleared(uid)
    ensures var was := old(c.state);
      Calm(env) ==>
        && SameWorld(was, c.state) && c.state.processes[pid].started == was.processes[pid].started
        && refused == (if target !in was.namespaces then Some(Error)
                       else if was.namespaces[target].labelled || |Consumers(was.namespaces)| < c.rules.max then None
                       else Some(AtCapacity))
  {
    hide DrainCall, JoinCall, Execute, LostReply, CreateLease, Surroundings, ReleaseCall, Depart, LeaseFree, Consumers;
    var ok, at := c.Api(pid, env(6));
    if !ok || target !in at.namespaces { return Some(Error); }
    if !at.namespaces[target].labelled {
      ok, at := c.Api(pid, env(7));
      if !ok { return Some(Error); }
      if |Consumers(at.namespaces)| >= c.rules.max { return Some(AtCapacity); }
    }
    return None;
  }

  /** The body of registerConsumer between the lease and its release. */
  method RegisterUnderLease(c: Cluster, pid: nat, target: string, env: nat -> Turn<Action>) returns (out: Verdict)
    requires Ready(c, pid, Register(target)) && Undisturbed(env, pid) && c.state.processes[pid].stage.Leased?
    modifies c
    ensures Ready(c, pid, Register(target)) && old(c.log) <= c.log
    ensures c.state.processes[pid].stage == Over(out)
    ensures out.Admitted? ==> (out.uid, out.nsUid) in c.state.admitted
    ensures Calm(env) && InTime(old(c.state).processes[pid], old(c.state).clock) ==>
              out == Joined(c.rules, old(c.state), target)
                  && (out.Admitted? ==> target in Consumers(c.state.namespaces))
  {
    hide DrainCall, JoinCall, Execute, LostReply, CreateLease, Surroundings, ReleaseCall, Depart, LeaseFree, Consumers;
    var ok, at := c.Api(pid, env(5));
    if !ok { return Error; }
    if at.component.None? { return Error; }
    if at.component.value.deleting || !at.component.value.ready { return NotReady; }
    var uid := at.component.value.uid;
    if c.rules.max > 0 {
      var refused := CheckCapacity(c, pid, target, uid, env);
      if refused.Some? { return refused.value; }
    }
    assert c.state.processes[pid].stage == Cleared(uid);
    out := LabelAndConfirm(c, pid, target, uid, env);
  }

  /** labelConsumer: the namespace is labelled now, or was; it is the one that was read. */
  method LabelConsumer(c: Cluster, pid: nat, target: string, uid: nat, env: nat -> Turn<Action>)
    returns (nsUid: Option<nat>)
    requires Ready(c, pid, Register(target)) && Undisturbed(env, pid)
    requires c.state.processes[pid].stage == Cleared(uid)
    modifies c
    ensures Ready(c, pid, Register(target)) && old(c.log) <= c.log
    ensures c.state.processes[pid].stage == if nsUid.Some? then Labelled(uid, nsUid.value) else Over(Error)
    ensures Calm(env) && InTime(old(c.state).processes[pid], old(c.state).clock) ==>
              && nsUid == (if target in old(c.state).namespaces then Some(old(c.state).namespaces[target].uid)
                           else None)
              && (nsUid.Some? ==> target in Consumers(c.state.namespaces))
              && c.state.component == old(c.state).component && InTime(c.state.processes[pid], c.state.clock)
  {
    hide DrainCall, CheckCall, Execute, Open, LostReply, CreateLease, Surroundings, ReleaseCall, Depart, LeaseFree;
    hide Joined;
    hide ReadLease, JudgeLease, DeleteExpired;
    var ok, at := c.Api(pid, env(8));
    if !ok || target !in at.namespaces { return None; }
    var seen := at.namespaces[target].uid;
    if !at.namespaces[target].labelled {
      ok, at := c.Api(pid, env(9));
      if !ok || c.state.processes[pid].stage.Over? { return None; }
      seen := at.namespaces[target].uid;
    }
    return Some(seen);
  }

  /** The second read of the component, before a success is reported. */
  method Confirm(c: Cluster, pid: nat, target: string, uid: nat, nsUid: nat, env: nat -> Turn<Action>)
    returns (out: Verdict)
    requires Ready(c, pid, Register(target)) && Undisturbed(env, pid)
    requires c.state.processes[pid].stage == Labelled(uid, nsUid)
    modifies c
    ensures Ready(c, pid, Register(target)) && old(c.log) <= c.log
    ensures c.state.processes[pid].stage == Over(out)
    ensures out.Admitted? ==> out == Admitted(uid, nsUid) && (uid, nsUid) in c.state.admitted
    ensures Calm(env) && InTime(old(c.state).processes[pid], old(c.state).clock)
            && Open(old(c.state).component) && old(c.state).component.value.uid == uid ==>
              out == Admitted(uid, nsUid) && c.state.namespaces == old(c.state).namespaces
  {
    hide DrainCall, CheckCall, Execute, LostReply, CreateLease, Surroundings, ReleaseCall, Depart, LeaseFree, Joined;
    hide Consumers;
    hide ReadLease, JudgeLease, DeleteExpired;
    var ok, at := c.Api(pid, env(10));
    if !ok || at.component.None? { return Error; }
    if at.component.value.uid != uid || at.component.value.deleting || !at.component.value.ready { return NotReady; }
    c.Others(env(11).before, pid);
    var inTime := InTime(c.state.processes[pid], c.state.clock);
    c.Do(Proceed(pid));
    if !inTime { return Error; }
    return Admitted(uid, nsUid);
  }

  /** labelConsumer, then the second read of the component. */
  method LabelAndConfirm(c: Cluster, pid: nat, target: string, uid: nat, env: nat -> Turn<Action>)
    returns (out: Verdict)
    requires Ready(c, pid, Register(target)) && Undisturbed(env, pid)
    requires c.state.processes[pid].stage == Cleared(uid)
    modifies c
    ensures Ready(c, pid, Register(target)) && old(c.log) <= c.log
    ensures c.state.processes[pid].stage == Over(out)
    ensures out.Admitted? ==> out.uid == uid && (uid, out.nsUid) in c.state.admitted
    ensures Calm(env) && InTime(old(c.state).processes[pid], old(c.state).clock)
            && Open(old(c.state).component) && old(c.state).component.value.uid == uid ==>
              out == (if target in old(c.state).namespaces then Admitted(uid, old(c.state).namespaces[target].uid)
                      else Error)
              && (out.Admitted? ==> target in Consumers(c.state.namespaces))
  {
    hide Call, Apply, Execute, Open, InTime, Consumers, LeaseFree, Joined, Ready;
    var nsUid := LabelConsumer(c, pid, target, uid, env);
    if nsUid.None? { return Error; }
    out := Confirm(c, pid, target, uid, nsUid.value, env);
  }

  /** registerConsumer: an admission recorded here is one of the state machine, so a drain
      of the same component can only have found its namespace gone. */
  method RegisterConsumer(c: Cluster, pid: nat, target: string, env: nat -> Turn<Action>) returns (out: Verdict)
    requires c.Valid() && pid !in c.state.processes && Undisturbed(env, pid)
    modifies c
    ensures c.Valid() && old(c.log) <= c.log && pid !in c.state.processes
    ensures out.Admitted? ==> (out.uid, out.nsUid) in c.state.admitted
    ensures out.Admitted? && out.uid in c.state.drained ==> Gone(c.state, out.nsUid)
    ensures Calm(env) ==> out == if LeaseFree(old(c.state)) then Joined(c.rules, old(c.state), target) else NotReady
    ensures Calm(env) && out.Admitted? ==> target in Consumers(c.state.namespaces)
  {
    hide Inv, Apply;
    Begin(c, pid, Register(target), env(0));
    var lease := AcquireProvisionLease(c, pid, Register(target), env);
    if lease.Err? {
      out := Error;
    } else if lease.value.None? {
      out := NotReady;
    } else {
      out := RegisterUnderLease(c, pid, target, env);
    }
    c.Leave(pid, env(12));
    AdmittedAndDrained(c.rules, c.log);
  }

  method Begin(c: Cluster, pid: nat, role: Role, turn: Turn<Action>)
    requires c.Valid() && pid !in c.state.processes && Foreign(turn.before, pid)
    modifies c
    ensures Ready(c, pid, role) && old(c.log) <= c.log && c.state.processes[pid].stage.Starting?
    ensures Still(turn) ==> SameWorld(old(c.state), c.state) && c.state.lease == old(c.state).lease
    ensures InTime(c.state.processes[pid], c.state.clock)
  {
    c.Others(turn.before, pid);
    c.Do(Spawn(pid, role));
  }

  lemma AdmittedAndDrained(rules: Rules, log: seq<Action>)
    ensures var s := Execute(rules, INITIAL, log);
      forall c | c in s.admitted && c.0 in s.drained :: Gone(s, c.1)
  {
    var s := Execute(rules, INITIAL, log);
    RunKeepsInv(rules, INITIAL, log);
    assert HistorySound(s);
  }

  method CountUnderLease(c: Cluster, pid: nat, uid: nat, env: nat -> Turn<Action>) returns (drained: bool)
    requires Ready(c, pid, Drain(uid)) && Undisturbed(env, pid) && c.state.processes[pid].stage.Leased?
    modifies c
    ensures Ready(c, pid, Drain(uid)) && old(c.log) <= c.log
    ensures if drained then c.state.processes[pid].stage.Empty? else c.state.processes[pid].stage.Over?
    ensures drained ==> uid in c.state.drained
    ensures Calm(env) && InTime(old(c.state).processes[pid], old(c.state).clock) ==>
              (drained <==> Drainable(old(c.state), uid))
  {
    hide RegisterCall, Execute, LostReply, CreateLease, Surroundings, ReleaseCall, Depart, LeaseFree, Joined;
    hide ReadLease, JudgeLease, DeleteExpired, Consumers;
    var ok, at := c.Api(pid, env(5));
    if !ok || at.component.None? || at.component.value.uid != uid || !at.component.value.deleting { return false; }
    ok, at := c.Api(pid, env(6));
    if !ok || c.state.processes[pid].stage.Over? { return false; }
    return true;
  }

  /** consumersDrained: true means that every namespace ever admitted to `uid` is gone. */
  method ConsumersDrained(c: Cluster, pid: nat, uid: nat, env: nat -> Turn<Action>) returns (drained: bool)
    requires c.Valid() && pid !in c.state.processes && Undisturbed(env, pid)
    modifies c
    ensures c.Valid() && old(c.log) <= c.log
    ensures drained ==> Ready(c, pid, Drain(uid)) && c.state.processes[pid].stage.Drained?
    ensures drained ==> uid in c.state.drained && forall x :: (uid, x) in c.state.admitted ==> Gone(c.state, x)
    ensures Calm(env) ==> (drained <==> LeaseFree(old(c.state)) && Drainable(old(c.state), uid))
  {
    hide Inv, Apply;
    Begin(c, pid, Drain(uid), env(0));
    var lease := AcquireProvisionLease(c, pid, Drain(uid), env);
    if lease.Err? || lease.value.None? {
      drained := false;
    } else {
      drained := CountUnderLease(c, pid, uid, env);
    }
    c.Leave(pid, env(7));
    AdmittedAndDrained(c.rules, c.log);
  }

  /** What a live look at the deploy Job, and observing the uninstall Job, come to. */
  datatype DeployJob = NoJob | JobDeleting | JobAtWork | JobEnded | JobUnreadable

  datatype Uninstall = NotSubmitted | AtWork | Succeeded | Failed | Unreadable

  datatype TornDown = Deferred | Submitted | Retrying(retries: int) | Released | Broken

  const MAX_UNINSTALL_RETRIES := 5

  /** What comes of the teardown of a drained component when its calls are answered. */
  function Teardown(job: DeployJob, observed: Uninstall, retries: int): TornDown {
    if job.JobUnreadable? then Broken
    else if job.JobDeleting? || job.JobAtWork? then Deferred
    else match observed
      case Unreadable => Broken
      case NotSubmitted => Submitted
      case AtWork => Deferred
      case Succeeded => Released
      case Failed => if retries + 1 >= MAX_UNINSTALL_RETRIES then Released else Retrying(retries + 1)
  }

  /** The answers that stand only when a patch of the component lands. */
  predicate NeedsPatch(out: TornDown) {
    out.Released? || out.Retrying?
  }

  /** The teardown of a component: an uninstall is submitted, counted as a retry or taken as
      done, after a drain only, and never beside a deploy Job at work. patched: the patch of the
      finalizer or of the retries lands. */
  method TearDown(c: Cluster, pid: nat, uid: nat, env: nat -> Turn<Action>,
                  job: DeployJob, observed: Uninstall, retries: int, patched: bool)
    returns (out: TornDown)
    requires c.Valid() && pid !in c.state.processes && Undisturbed(env, pid)
    modifies c
    ensures c.Valid() && old(c.log) <= c.log
    ensures out.Submitted? ==> uid in c.state.uninstalled
    ensures out.Submitted? || out.Released? || out.Retrying? ==>
              && uid in c.state.drained && (forall x :: (uid, x) in c.state.admitted ==> Gone(c.state, x))
              && out == Teardown(job, observed, retries)
    ensures out.Submitted? || out.Released? || out.Retrying? ==> job.NoJob? || job.JobEnded?
    ensures out.Submitted? ==> observed.NotSubmitted?
    ensures out.Released? ==> observed.Succeeded? || (observed.Failed? && retries + 1 >= MAX_UNINSTALL_RETRIES)
    ensures out.Retrying? ==> observed.Failed? && out.retries == retries + 1 < MAX_UNINSTALL_RETRIES
    ensures Calm(env) ==>
              out == if !LeaseFree(old(c.state)) || !Drainable(old(c.state), uid) then Deferred
                     else if !patched && NeedsPatch(Teardown(job, observed, retries)) then Broken
                     else Teardown(job, observed, retries)
  {
    hide Inv, RegisterCall, Execute, LostReply, Surroundings, ReleaseCall, Depart, LeaseFree, Consumers;
    var drained := ConsumersDrained(c, pid, uid, env);
    if !drained { return Deferred; }
    match job {
      case JobUnreadable => return Broken;
      case JobDeleting => return Deferred;
      case JobAtWork => return Deferred;
      case NoJob =>
      case JobEnded =>
    }
    match observed {
      case Unreadable => return Broken;
      case AtWork => return Deferred;
      case Succeeded => return if patched then Released else Broken;
      case Failed =>
        var count := retries + 1;
        if !patched { return Broken; }
        if count >= MAX_UNINSTALL_RETRIES { return Released; }
        return Retrying(count);
      case NotSubmitted =>
        ghost var before := c.log;
        var ok, at := c.Api(pid, env(8));
        HistoryKept(c.rules, before, c.log);
        AdmittedAndDrained(c.rules, c.log);
        return if ok then Submitted else Broken;
    }
  }
}
