/**
  Without the lease, a registration that confirmed before the drain may report its success
  after it. Exactly when, and a run in which it does.
 */
module LateSuccess {
  import opened Wrappers
  import opened SharedAdmission
  import opened DrainBarrier
  import opened LastAdmission
  import opened SharedRegistration

  /** A registration with `u` that confirmed and did not report yet cannot report any more. */
  ghost predicate LateFor(s: State, u: nat, p: Process) {
    p.role.Register? && p.stage.Confirmed? && p.stage.uid == u && (u, p.stage.nsUid) !in s.admitted ==>
        !InTime(p, s.clock)
  }

  ghost predicate NobodyLeft(s: State, u: nat) {
    forall pid | pid in s.processes :: LateFor(s, u, s.processes[pid])
  }

  ghost predicate NoMore(rules: Rules, s: State, u: nat) {
    forall run, x | (u, x) in Execute(rules, s, run).admitted :: (u, x) in s.admitted
  }

  lemma StepStaysLate(s: State, t: State, pid: nat, u: nat)
    requires NobodyLeft(s, u) && s.clock <= t.clock && s.admitted <= t.admitted && OnlyMoved(s, t, pid)
    requires pid in t.processes && t.processes[pid].stage.Confirmed? ==>
               t.processes[pid].stage.uid != u || (pid in s.processes && s.processes[pid] == t.processes[pid])
    ensures NobodyLeft(t, u)
  {
    forall q | q in t.processes ensures LateFor(t, u, t.processes[q]) {
      if q in s.processes { assert LateFor(s, u, s.processes[q]); }
    }
  }

  lemma CallStaysLate(rules: Rules, s: State, pid: nat, u: nat)
    requires Inv(s) && u in s.drained && NobodyLeft(s, u) && pid in s.processes
    ensures NobodyLeft(Call(rules, s, pid), u)
    ensures forall x | (u, x) in Call(rules, s, pid).admitted :: (u, x) in s.admitted
  {
    var t := Call(rules, s, pid);
    assert Condemned(s, u) && LateFor(s, u, s.processes[pid]);
    hide Inv, NobodyLeft;
    CallAdmits(rules, s, pid);
    if s.processes[pid].stage.SawDeleting? {
      SawDeletingMoves(rules, s, pid);
    } else {
      OnlyOpenIsConfirmed(rules, s, pid);
    }
    hide Call;
    StepStaysLate(s, t, pid, u);
  }

  lemma SawDeletingMoves(rules: Rules, s: State, pid: nat)
    requires pid in s.processes && s.processes[pid].stage.SawDeleting?
    ensures var t := Call(rules, s, pid);
      s.clock == t.clock && OnlyMoved(s, t, pid) && pid in t.processes && !t.processes[pid].stage.Confirmed?
  {
    hide Consumers, InTime;
  }

  lemma CallAdmits(rules: Rules, s: State, pid: nat)
    requires pid in s.processes
    ensures var p := s.processes[pid];
      var t := Call(rules, s, pid);
      t.admitted == if p.role.Register? && p.stage.Confirmed? && InTime(p, s.clock)
                    then s.admitted + {(p.stage.uid, p.stage.nsUid)} else s.admitted
  {
    hide Consumers, Expired, InTime, Open;
  }

  ghost predicate StaysOver(s: State, t: State, u: nat) {
    NobodyLeft(t, u) && forall x | (u, x) in t.admitted :: (u, x) in s.admitted
  }

  lemma OwnStepAdmitsNobody(rules: Rules, s: State, a: Action, u: nat)
    requires NobodyLeft(s, u) && (a.Spawn? || a.Stamp? || a.Fail? || a.Crash? || a.Release? || a.LeaveLease?)
    ensures StaysOver(s, Apply(rules, s, a), u)
  {
    hide NobodyLeft;
    StepStaysLate(s, Apply(rules, s, a), a.pid, u);
  }

  lemma OutsideAdmitsNobody(rules: Rules, s: State, a: Action, u: nat)
    requires NobodyLeft(s, u)
    ensures StaysOver(s, Surroundings(rules, s, a), u)
  {
    hide NobodyLeft;
    StepStaysLate(s, Surroundings(rules, s, a), 0, u);
  }

  lemma StepAdmitsNoMore(rules: Rules, s: State, a: Action, u: nat)
    requires Inv(s) && u in s.drained && NobodyLeft(s, u)
    ensures StaysOver(s, Apply(rules, s, a), u)
  {
    hide Inv, NobodyLeft, Call, LostReply, ReleaseCall, Depart, Surroundings;
    match a {
      case Proceed(pid) => if pid in s.processes { CallStaysLate(rules, s, pid, u); }
      case LoseReply(pid) =>
        if pid in s.processes {
          LostReplyIsQuiet(rules, s, pid);
          StepStaysLate(s, LostReply(rules, s, pid), pid, u);
        }
      case Spawn(_, _) => OwnStepAdmitsNobody(rules, s, a, u);
      case Stamp(_) => OwnStepAdmitsNobody(rules, s, a, u);
      case Fail(_) => OwnStepAdmitsNobody(rules, s, a, u);
      case Release(_) => OwnStepAdmitsNobody(rules, s, a, u);
      case LeaveLease(_) => OwnStepAdmitsNobody(rules, s, a, u);
      case Crash(_) => OwnStepAdmitsNobody(rules, s, a, u);
      case Tick(_) => StepStaysLate(s, Apply(rules, s, a), 0, u);
      case _ => OutsideAdmitsNobody(rules, s, a, u);
    }
  }

  lemma {:induction false} RunAdmitsNoMore(rules: Rules, s: State, run: seq<Action>, u: nat)
    requires Inv(s) && u in s.drained && NobodyLeft(s, u)
    ensures forall x | (u, x) in Execute(rules, s, run).admitted :: (u, x) in s.admitted
    decreases |run|
  {
    hide Inv, NobodyLeft, Apply;
    if run != [] {
      StepAdmitsNoMore(rules, s, run[0], u);
      StepKeepsInv(rules, s, run[0]);
      StepGrowsDrained(rules, s, run[0]);
      RunAdmitsNoMore(rules, Apply(rules, s, run[0]), run[1..], u);
    }
  }

  lemma ReportsNow(rules: Rules, s: State, pid: nat, u: nat)
    requires pid in s.processes && !LateFor(s, u, s.processes[pid])
    ensures !NoMore(rules, s, u)
  {
    var p := s.processes[pid];
    var t := Apply(rules, s, Proceed(pid));
    CallAdmits(rules, s, pid);
    assert (u, p.stage.nsUid) in t.admitted;
    hide Apply;
    assert [Proceed(pid)][1..] == [];
    assert Execute(rules, t, []) == t;
    assert Execute(rules, s, [Proceed(pid)]) == t;
  }

  /** After a drain of `u`, and whatever became of the lease: no registration with `u` reports
      success any more, in any run, exactly if none that confirmed is still within its ten
      seconds. */
  lemma SuccessIsOverExactlyWhen(rules: Rules, s: State, u: nat)
    requires Inv(s) && u in s.drained
    ensures NoMore(rules, s, u) <==> NobodyLeft(s, u)
  {
    if NobodyLeft(s, u) {
      forall run, x | (u, x) in Execute(rules, s, run).admitted ensures (u, x) in s.admitted {
        RunAdmitsNoMore(rules, s, run, u);
      }
    } else {
      var pid :| pid in s.processes && !LateFor(s, u, s.processes[pid]);
      ReportsNow(rules, s, pid, u);
    }
  }

  // ---- a run ---------------------------------------------------------------------------------

  /** states are what a run passes through. */
  ghost predicate Path(rules: Rules, states: seq<State>, run: seq<Action>) {
    |states| == |run| + 1 && forall i | 0 <= i < |run| :: Apply(rules, states[i], run[i]) == states[i + 1]
  }

  lemma {:induction false} PathExecutes(rules: Rules, states: seq<State>, run: seq<Action>)
    requires Path(rules, states, run)
    ensures Execute(rules, states[0], run) == states[|run|]
    decreases |run|
  {
    hide Apply;
    if run != [] {
      forall i | 0 <= i < |run[1..]| ensures Apply(rules, states[1..][i], run[1..][i]) == states[1..][i + 1] {
        assert Apply(rules, states[i + 1], run[i + 1]) == states[i + 2];
      }
      PathExecutes(rules, states[1..], run[1..]);
    }
  }

  const RULES := Rules(0, false)
  const NS := "ns"
  const SEEN := Namespace(1, 1, false)
  const MARKED := Namespace(1, 3, true)
  const HELD := Lease(2, 2, Some(0))
  const DRAINING := Lease(4, 4, Some(0))

  function Consumer(stage: Stage, lease: Option<Lease>): Process {
    Process(Register(NS), 0, 0, stage, lease)
  }

  function Drainer(stage: Stage, lease: Option<Lease>): Process {
    Process(Drain(0), 0, 0, stage, lease)
  }

  const C1 := INITIAL.(component := Some(Component(0, false, false)), next := 1)
  const C2 := C1.(component := Some(Component(0, false, true)))
  const C3 := C2.(namespaces := map[NS := SEEN], next := 2)
  const C4 := C3.(processes := map[1 := Consumer(Starting, None)])
  const C5 := C3.(processes := map[1 := Consumer(FoundNone, None)])
  const C6 := C3.(lease := Some(HELD), next := 3, processes := map[1 := Consumer(Leased, Some(HELD))])
  const C7 := C6.(processes := map[1 := Consumer(Cleared(0), Some(HELD))])
  const C8 := C6.(processes := map[1 := Consumer(ReadNamespace(0, SEEN), Some(HELD))])
  const C9 := C6.(namespaces := map[NS := MARKED], next := 4,
                  processes := map[1 := Consumer(Labelled(0, 1), Some(HELD))])
  const WAITING := Consumer(Confirmed(0, 1), Some(HELD))
  const C10 := C9.(processes := map[1 := WAITING], confirmed := {(0, 1)})
  const D1 := C10.(lease := None)
  const D2 := D1.(component := Some(Component(0, true, true)))
  const D3 := D2.(namespaces := map[])
  const D4 := D3.(processes := map[1 := WAITING, 2 := Drainer(Starting, None)])
  const D5 := D3.(processes := map[1 := WAITING, 2 := Drainer(FoundNone, None)])
  const D6 := D3.(lease := Some(DRAINING), next := 5,
                  processes := map[1 := WAITING, 2 := Drainer(Leased, Some(DRAINING))])
  const D7 := D6.(processes := map[1 := WAITING, 2 := Drainer(SawDeleting, Some(DRAINING))])
  const D8 := D6.(processes := map[1 := WAITING, 2 := Drainer(Empty, Some(DRAINING))], drained := {0})

  /** A component, a namespace, and a registration that gets its lease. */
  lemma Acquires()
    ensures Path(RULES, [INITIAL, C1, C2, C3, C4, C5, C6],
                 [CreateComponent, SetReady(true), CreateNamespace(NS), Spawn(1, Register(NS)), Proceed(1), Proceed(1)])
  {
    assert Apply(RULES, C2, CreateNamespace(NS)) == C3;
    assert Apply(RULES, C3, Spawn(1, Register(NS))) == C4;
    assert Apply(RULES, C4, Proceed(1)) == C5;
    assert Apply(RULES, C5, Proceed(1)) == C6;
  }

  /** It labels the namespace, and confirms. */
  lemma Confirms()
    ensures Path(RULES, [C6, C7, C8, C9, C10], [Proceed(1), Proceed(1), Proceed(1), Proceed(1)])
  {
    assert Apply(RULES, C6, Proceed(1)) == C7;
    assert Apply(RULES, C7, Proceed(1)) == C8;
    assert Apply(RULES, C8, Proceed(1)) == C9;
    assert Apply(RULES, C9, Proceed(1)) == C10;
  }

  /** The lease is lost, the component deleted, the namespace removed. */
  lemma Vanishes()
    ensures Path(RULES, [C10, D1, D2, D3, D4], [RemoveLease, DeleteComponent, RemoveNamespace(NS), Spawn(2, Drain(0))])
  {
    hide Call, LostReply, ReleaseCall, Depart, Consumers;
    assert Apply(RULES, C10, RemoveLease) == D1;
    assert Apply(RULES, D1, DeleteComponent) == D2;
    assert Apply(RULES, D2, RemoveNamespace(NS)) == D3;
    assert Apply(RULES, D3, Spawn(2, Drain(0))) == D4;
  }

  lemma DrainTakesLease()
    ensures Apply(RULES, D4, Proceed(2)) == D5 && Apply(RULES, D5, Proceed(2)) == D6
  {
    hide LostReply, ReleaseCall, Depart, Surroundings, Consumers, RegisterCall, DrainCall;
  }

  lemma DrainCounts()
    ensures Apply(RULES, D6, Proceed(2)) == D7 && Apply(RULES, D7, Proceed(2)) == D8
  {
    hide LostReply, ReleaseCall, Depart, Surroundings, RegisterCall, ReadLease, JudgeLease, DeleteExpired, CreateLease;
    assert Consumers(D7.namespaces) == {};
  }

  /** A drain finds nobody. */
  lemma Drains()
    ensures Path(RULES, [D4, D5, D6, D7, D8], [Proceed(2), Proceed(2), Proceed(2), Proceed(2)])
  {
    DrainTakesLease();
    DrainCounts();
    hide Apply;
  }

  const RUN :=
    [CreateComponent, SetReady(true), CreateNamespace(NS), Spawn(1, Register(NS)), Proceed(1), Proceed(1)]
    + [Proceed(1), Proceed(1), Proceed(1), Proceed(1)]
    + [RemoveLease, DeleteComponent, RemoveNamespace(NS), Spawn(2, Drain(0))]
    + [Proceed(2), Proceed(2), Proceed(2), Proceed(2)]

  lemma RunEnds()
    ensures Execute(RULES, INITIAL, RUN) == D8
  {
    var a := [CreateComponent, SetReady(true), CreateNamespace(NS), Spawn(1, Register(NS)), Proceed(1), Proceed(1)];
    var b := [Proceed(1), Proceed(1), Proceed(1), Proceed(1)];
    var c := [RemoveLease, DeleteComponent, RemoveNamespace(NS), Spawn(2, Drain(0))];
    var d := [Proceed(2), Proceed(2), Proceed(2), Proceed(2)];
    Acquires();
    Confirms();
    Vanishes();
    Drains();
    hide *;
    PathExecutes(RULES, [INITIAL, C1, C2, C3, C4, C5, C6], a);
    PathExecutes(RULES, [C6, C7, C8, C9, C10], b);
    PathExecutes(RULES, [C10, D1, D2, D3, D4], c);
    PathExecutes(RULES, [D4, D5, D6, D7, D8], d);
    ExecuteConcat(RULES, INITIAL, a, b);
    ExecuteConcat(RULES, INITIAL, a + b, c);
    ExecuteConcat(RULES, INITIAL, a + b + c, d);
  }

  /** When somebody takes the lease away, a registration may report success for a component
      that is already drained. */
  lemma SuccessMayComeLate()
    ensures var s := Execute(RULES, INITIAL, RUN);
      Inv(s) && 0 in s.drained && !NobodyLeft(s, 0) && !NoMore(RULES, s, 0)
  {
    hide Execute, Inv, NoMore;
    StartIsSound();
    RunKeepsInv(RULES, INITIAL, RUN);
    RunEnds();
    assert D8.processes[1] == WAITING && !LateFor(D8, 0, D8.processes[1]);
    SuccessIsOverExactlyWhen(RULES, D8, 0);
  }

  lemma StartIsSound()
    ensures Inv(INITIAL)
  {
  }
}
