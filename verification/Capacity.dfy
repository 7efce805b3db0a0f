/**
  maxConsumers is never exceeded: the lease keeps the count and the label of two
  registrations apart, because the 10s work window ends inside the 30s lease.
 */
module Capacity {
  import opened Wrappers
  import opened SharedAdmission

  /** The clock and the leases, as one process sees them. */
  ghost predicate LeaseSound(s: State, p: Process) {
    && p.started <= p.stamp <= s.clock
    && (p.lease.Some? ==>
      && p.lease.value.uid < s.next
      && p.lease.value.renewed == Some(p.stamp)
      && (s.lease == p.lease || s.clock > p.stamp + LEASE_DURATION))
    && (p.stage.FoundExpired? ==> Expired(p.stage.seen, s.clock))
    && (p.stage.FoundExpired? || p.stage.SawLease? ==>
      && p.stage.seen.uid < s.next
      && (s.lease.Some? && s.lease.value.uid == p.stage.seen.uid ==> s.lease.value == p.stage.seen))
    && (Acquiring(p.stage) ==> p.lease.None?)
    && (!Acquiring(p.stage) && !Leaving(p.stage) && !p.stage.Drained? ==> p.lease.Some?)
  }

  /** Room for the namespace this process is about to label. */
  ghost predicate RoomLeft(rules: Rules, s: State, p: Process) {
    p.role.Register? && (p.stage.Cleared? || p.stage.ReadNamespace?) && InTime(p, s.clock)
    ==> |Consumers(s.namespaces) - {p.role.target}| < rules.max
  }

  ghost predicate DistinctLeases(s: State) {
    forall p, q | p in s.processes && q in s.processes && s.processes[p].lease.Some? && s.processes[q].lease.Some?
                  && s.processes[p].lease.value.uid == s.processes[q].lease.value.uid :: p == q
  }

  ghost predicate LeasesSound(s: State) {
    && (s.lease.Some? ==> s.lease.value.uid < s.next)
    && (forall pid | pid in s.processes :: LeaseSound(s, s.processes[pid]))
    && DistinctLeases(s)
  }

  ghost predicate WithinCapacity(rules: Rules, s: State) {
    && |Consumers(s.namespaces)| <= rules.max
    && (forall pid | pid in s.processes :: RoomLeft(rules, s, s.processes[pid]))
  }

  lemma SurroundingsKeepLeases(rules: Rules, s: State, a: Action)
    requires rules.bounded && LeasesSound(s)
    ensures LeasesSound(Surroundings(rules, s, a))
  {
    var t := Surroundings(rules, s, a);
    forall q | q in t.processes ensures LeaseSound(t, t.processes[q]) {
      assert LeaseSound(s, s.processes[q]);
    }
  }

  /** A step that leaves the lease alone, moving at most one process past its acquisition. */
  lemma LeaseUntouched(s: State, t: State, pid: nat)
    requires LeasesSound(s) && s.lease == t.lease && s.clock == t.clock && s.next <= t.next
    requires t.processes.Keys <= s.processes.Keys
    requires forall q | q in t.processes && q != pid :: t.processes[q] == s.processes[q]
    requires pid in t.processes ==>
               var (p, p') := (s.processes[pid], t.processes[pid]);
               && p'.started == p.started && p'.stamp == p.stamp && (p'.lease == p.lease || p'.lease.None?)
               && LeaseSound(t, p')
    ensures LeasesSound(t)
  {
    forall q | q in t.processes ensures LeaseSound(t, t.processes[q]) {
      assert LeaseSound(s, s.processes[q]);
    }
  }

  predicate Holding(g: Stage) {
    !Acquiring(g) && !Leaving(g) && !g.Drained?
  }

  /** Nothing but the stage of process `pid`, which is past its acquisition, is different for the leases. */
  ghost predicate Moves(s: State, t: State, pid: nat) {
    && s.lease == t.lease && s.clock == t.clock && s.next <= t.next
    && pid in s.processes && s.processes.Keys == t.processes.Keys
    && (forall q | q in t.processes && q != pid :: t.processes[q] == s.processes[q])
    && var (p, g) := (s.processes[pid], t.processes[pid].stage);
    && t.processes[pid] == p.(stage := g)
    && !Acquiring(g) && (Leaving(g) || g == p.stage || Holding(p.stage))
  }

  lemma MovesKeepLeases(s: State, t: State, pid: nat)
    requires LeasesSound(s) && Moves(s, t, pid)
    ensures LeasesSound(t)
  {
    hide DistinctLeases;
    assert LeaseSound(s, s.processes[pid]);
    LeaseUntouched(s, t, pid);
  }

  /** Only the stage of process `pid` is different, beside the history. */
  ghost predicate StageOnly(s: State, t: State, pid: nat) {
    && s.lease == t.lease && s.clock == t.clock && s.next == t.next && s.namespaces == t.namespaces
    && pid in s.processes && pid in t.processes
    && t.processes == s.processes[pid := s.processes[pid].(stage := t.processes[pid].stage)]
  }

  lemma StageOnlyMoves(s: State, t: State, pid: nat)
    requires StageOnly(s, t, pid) && !Acquiring(t.processes[pid].stage)
    requires Leaving(t.processes[pid].stage) || t.processes[pid].stage == s.processes[pid].stage
             || Holding(s.processes[pid].stage)
    ensures Moves(s, t, pid)
  {
  }

  lemma CheckCallStage(rules: Rules, s: State, pid: nat, target: string)
    requires pid in s.processes && Checking(s.processes[pid].stage)
    ensures var t := CheckCall(rules, s, pid, target);
      StageOnly(s, t, pid) && !Acquiring(t.processes[pid].stage)
  {
    hide Consumers, InTime, Open;
  }

  lemma CheckCallMoves(rules: Rules, s: State, pid: nat, target: string)
    requires pid in s.processes && Checking(s.processes[pid].stage)
    ensures Moves(s, CheckCall(rules, s, pid, target), pid)
  {
    CheckCallStage(rules, s, pid, target);
    hide Moves, CheckCall;
    StageOnlyMoves(s, CheckCall(rules, s, pid, target), pid);
  }

  lemma JoinCallStage(rules: Rules, s: State, pid: nat, target: string)
    requires pid in s.processes && !Acquiring(s.processes[pid].stage) && !s.processes[pid].stage.ReadNamespace?
    ensures var t := JoinCall(rules, s, pid, target);
      && StageOnly(s, t, pid) && !Acquiring(t.processes[pid].stage)
      && (Leaving(t.processes[pid].stage) || t.processes[pid].stage == s.processes[pid].stage
          || Holding(s.processes[pid].stage))
  {
    hide Consumers, InTime, Open;
    assert s.processes == s.processes[pid := s.processes[pid]];
  }

  lemma LabelMoves(rules: Rules, s: State, pid: nat, target: string)
    requires pid in s.processes && s.processes[pid].stage.ReadNamespace?
    ensures Moves(s, JoinCall(rules, s, pid, target), pid)
  {
    hide InTime;
  }

  lemma JoinCallMoves(rules: Rules, s: State, pid: nat, target: string)
    requires pid in s.processes && !Acquiring(s.processes[pid].stage)
    ensures Moves(s, JoinCall(rules, s, pid, target), pid)
  {
    hide Moves, JoinCall, StageOnly;
    if s.processes[pid].stage.ReadNamespace? {
      LabelMoves(rules, s, pid, target);
    } else {
      JoinCallStage(rules, s, pid, target);
      StageOnlyMoves(s, JoinCall(rules, s, pid, target), pid);
    }
  }

  lemma DrainCallMoves(s: State, pid: nat, uid: nat)
    requires pid in s.processes && !Acquiring(s.processes[pid].stage)
    ensures Moves(s, DrainCall(s, pid, uid), pid)
  {
    hide Consumers, InTime;
  }

  lemma ReadLeaseKeepsLeases(s: State, pid: nat)
    requires LeasesSound(s) && pid in s.processes && s.processes[pid].stage.Starting?
    ensures LeasesSound(ReadLease(s, pid))
  {
    assert LeaseSound(s, s.processes[pid]);
    LeaseUntouched(s, ReadLease(s, pid), pid);
  }

  lemma JudgeKeepsLeases(s: State, pid: nat)
    requires LeasesSound(s) && pid in s.processes && s.processes[pid].stage.SawLease?
    ensures LeasesSound(JudgeLease(s, pid, s.processes[pid].stage.seen))
  {
    assert LeaseSound(s, s.processes[pid]);
    LeaseUntouched(s, JudgeLease(s, pid, s.processes[pid].stage.seen), pid);
  }

  /** The lease that is deleted here has expired, for its creator as for everybody. */
  lemma DeleteKeepsLeases(s: State, pid: nat)
    requires LeasesSound(s) && pid in s.processes && s.processes[pid].stage.FoundExpired?
    ensures LeasesSound(DeleteExpired(s, pid, s.processes[pid].stage.seen))
  {
    var t := DeleteExpired(s, pid, s.processes[pid].stage.seen);
    assert LeaseSound(s, s.processes[pid]);
    forall q | q in t.processes ensures LeaseSound(t, t.processes[q]) {
      assert LeaseSound(s, s.processes[q]);
    }
  }

  /** A new lease carries a UID that no process holds yet. */
  lemma CreateKeepsDistinct(rules: Rules, s: State, pid: nat)
    requires LeasesSound(s) && pid in s.processes
    ensures DistinctLeases(CreateLease(rules, s, pid))
  {
    assert forall q | q in s.processes && s.processes[q].lease.Some? :: LeaseSound(s, s.processes[q]);
    hide InTime, Expired;
  }

  lemma CreateKeepsLeases(rules: Rules, s: State, pid: nat)
    requires LeasesSound(s) && pid in s.processes && s.processes[pid].stage.FoundNone?
    ensures LeasesSound(CreateLease(rules, s, pid))
  {
    CreateKeepsDistinct(rules, s, pid);
    hide DistinctLeases, InTime;
    var t := CreateLease(rules, s, pid);
    assert LeaseSound(s, s.processes[pid]);
    forall q | q in t.processes ensures LeaseSound(t, t.processes[q]) {
      assert LeaseSound(s, s.processes[q]);
    }
  }

  lemma CallKeepsLeases(rules: Rules, s: State, pid: nat)
    requires LeasesSound(s) && pid in s.processes
    ensures LeasesSound(Call(rules, s, pid))
  {
    hide LeasesSound, Moves, ReadLease, JudgeLease, DeleteExpired, CreateLease, CheckCall, JoinCall, DrainCall;
    var p := s.processes[pid];
    if p.stage.Starting? { ReadLeaseKeepsLeases(s, pid); }
    else if p.stage.SawLease? { JudgeKeepsLeases(s, pid); }
    else if p.stage.FoundExpired? { DeleteKeepsLeases(s, pid); }
    else if p.stage.FoundNone? { CreateKeepsLeases(rules, s, pid); }
    else {
      PastAcquisitionMoves(rules, s, pid);
      MovesKeepLeases(s, Call(rules, s, pid), pid);
    }
  }

  lemma PastAcquisitionMoves(rules: Rules, s: State, pid: nat)
    requires pid in s.processes && !Acquiring(s.processes[pid].stage)
    ensures Moves(s, Call(rules, s, pid), pid)
  {
    hide Moves, CheckCall, JoinCall, DrainCall;
    var p := s.processes[pid];
    if p.role.Register? && Checking(p.stage) {
      CheckCallMoves(rules, s, pid, p.role.target);
    } else if p.role.Register? {
      JoinCallMoves(rules, s, pid, p.role.target);
    } else {
      DrainCallMoves(s, pid, p.role.uid);
    }
  }

  lemma LostReplyKeepsLeases(rules: Rules, s: State, pid: nat)
    requires LeasesSound(s) && pid in s.processes
    ensures LeasesSound(LostReply(rules, s, pid))
  {
    var p, t := s.processes[pid], LostReply(rules, s, pid);
    var g := p.stage;
    if g.FoundExpired? || g.FoundNone? || g.ReadNamespace? {
      var u := Call(rules, s, pid);
      CallKeepsLeases(rules, s, pid);
      CallKeepsProcess(rules, s, pid);
      assert LeaseSound(s, p) && LeaseSound(u, u.processes[pid]);
      hide LeasesSound, Call;
      LeaseUntouched(u, t, pid);
    } else {
      hide LeasesSound, Call;
      MovesKeepLeases(s, t, pid);
    }
  }

  /** A write starts no context anew, and gives at most its own lease. */
  lemma CallKeepsProcess(rules: Rules, s: State, pid: nat)
    requires pid in s.processes
    requires s.processes[pid].stage.FoundExpired? || s.processes[pid].stage.FoundNone?
             || s.processes[pid].stage.ReadNamespace?
    ensures var t := Call(rules, s, pid);
      && s.processes.Keys == t.processes.Keys && s.clock == t.clock && s.next <= t.next
      && (forall q | q in t.processes && q != pid :: t.processes[q] == s.processes[q])
      && var (p, p') := (s.processes[pid], t.processes[pid]);
      && p.started == p'.started && p.stamp == p'.stamp && p.role == p'.role
      && (p.stage.ReadNamespace? ==> p.lease == p'.lease && s.lease == t.lease)
  {
    hide Consumers, InTime, Expired, Open;
  }

  /** A release removes the very lease its process created, never a successor's. */
  lemma ReleaseKeepsLeases(s: State, pid: nat)
    requires LeasesSound(s) && pid in s.processes
    ensures LeasesSound(ReleaseCall(s, pid))
    ensures forall q | q in s.processes && q != pid && s.processes[q].lease.Some? && s.processes[q].lease == s.lease ::
      ReleaseCall(s, pid).lease == s.lease
  {
    var t := ReleaseCall(s, pid);
    assert LeaseSound(s, s.processes[pid]);
    forall q | q in t.processes ensures LeaseSound(t, t.processes[q]) {
      assert LeaseSound(s, s.processes[q]);
    }
  }

  lemma DepartKeepsLeases(s: State, pid: nat)
    requires LeasesSound(s) && pid in s.processes
    ensures LeasesSound(Depart(s, pid))
  {
    hide DistinctLeases;
    assert LeaseSound(s, s.processes[pid]);
    LeaseUntouched(s, Depart(s, pid), pid);
  }

  lemma TimeKeepsLeases(rules: Rules, s: State, elapsed: nat)
    requires LeasesSound(s)
    ensures LeasesSound(Apply(rules, s, Tick(elapsed)))
  {
    var t := Apply(rules, s, Tick(elapsed));
    forall q | q in t.processes ensures LeaseSound(t, t.processes[q]) {
      assert LeaseSound(s, s.processes[q]);
    }
  }

  lemma SpawnKeepsLeases(rules: Rules, s: State, pid: nat, role: Role)
    requires LeasesSound(s)
    ensures LeasesSound(Apply(rules, s, Spawn(pid, role)))
  {
    var t := Apply(rules, s, Spawn(pid, role));
    forall q | q in t.processes ensures LeaseSound(t, t.processes[q]) {
      if q in s.processes { assert LeaseSound(s, s.processes[q]); }
    }
  }

  lemma StampKeepsLeases(rules: Rules, s: State, pid: nat)
    requires LeasesSound(s)
    ensures LeasesSound(Apply(rules, s, Stamp(pid)))
  {
    var t := Apply(rules, s, Stamp(pid));
    forall q | q in t.processes ensures LeaseSound(t, t.processes[q]) {
      assert LeaseSound(s, s.processes[q]);
    }
  }

  lemma StepKeepsLeases(rules: Rules, s: State, a: Action)
    requires rules.bounded && LeasesSound(s)
    ensures LeasesSound(Apply(rules, s, a))
  {
    hide Call, Surroundings, LostReply, ReleaseCall, Depart, LeasesSound;
    match a {
      case Proceed(pid) => if pid in s.processes { CallKeepsLeases(rules, s, pid); }
      case LoseReply(pid) => if pid in s.processes { LostReplyKeepsLeases(rules, s, pid); }
      case Tick(elapsed) => TimeKeepsLeases(rules, s, elapsed);
      case Spawn(pid, role) => SpawnKeepsLeases(rules, s, pid, role);
      case Stamp(pid) => StampKeepsLeases(rules, s, pid);
      case Fail(pid) => if pid in s.processes { MovesKeepLeases(s, Apply(rules, s, a), pid); }
      case Release(pid) => if pid in s.processes { ReleaseKeepsLeases(s, pid); }
      case LeaveLease(pid) => if pid in s.processes { DepartKeepsLeases(s, pid); }
      case Crash(pid) => CrashKeepsLeases(rules, s, pid);
      case _ => SurroundingsKeepLeases(rules, s, a);
    }
  }

  lemma CrashKeepsLeases(rules: Rules, s: State, pid: nat)
    requires LeasesSound(s)
    ensures LeasesSound(Apply(rules, s, Crash(pid)))
  {
    hide LeasesSound;
    LeaseUntouched(s, Apply(rules, s, Crash(pid)), pid);
  }

  lemma SubsetSize(a: set<string>, b: set<string>)
    requires a <= b
    ensures |a| <= |b|
  {
    if a != {} {
      var x :| x in a;
      SubsetSize(a - {x}, b - {x});
    }
  }

  /** A step after which no namespace is a consumer that was not one before. */
  lemma NobodyLabelled(rules: Rules, s: State, t: State, pid: nat)
    requires WithinCapacity(rules, s) && s.clock <= t.clock
    requires Consumers(t.namespaces) <= Consumers(s.namespaces)
    requires forall q | q in t.processes && q != pid :: q in s.processes && t.processes[q] == s.processes[q]
    requires pid in t.processes ==> RoomLeft(rules, t, t.processes[pid])
    ensures WithinCapacity(rules, t)
  {
    SubsetSize(Consumers(t.namespaces), Consumers(s.namespaces));
    forall q | q in t.processes ensures RoomLeft(rules, t, t.processes[q]) {
      if q != pid {
        var p := t.processes[q];
        assert RoomLeft(rules, s, p);
        if p.role.Register? {
          SubsetSize(Consumers(t.namespaces) - {p.role.target}, Consumers(s.namespaces) - {p.role.target});
        }
      }
    }
  }

  lemma NobodyLabelledAtAll(rules: Rules, s: State, t: State)
    requires WithinCapacity(rules, s) && s.clock <= t.clock
    requires Consumers(t.namespaces) <= Consumers(s.namespaces) && s.processes == t.processes
    ensures WithinCapacity(rules, t)
  {
    SubsetSize(Consumers(t.namespaces), Consumers(s.namespaces));
    forall q | q in t.processes ensures RoomLeft(rules, t, t.processes[q]) {
      var p := t.processes[q];
      assert RoomLeft(rules, s, p);
      if p.role.Register? {
        SubsetSize(Consumers(t.namespaces) - {p.role.target}, Consumers(s.namespaces) - {p.role.target});
      }
    }
  }

  /** Two processes that may both still write hold the same lease, so they are one. */
  lemma OneWriter(s: State, p: nat, q: nat)
    requires LeasesSound(s) && p in s.processes && q in s.processes
    requires s.processes[p].lease.Some? && s.processes[q].lease.Some?
    requires InTime(s.processes[p], s.clock) && InTime(s.processes[q], s.clock)
    ensures p == q
  {
    assert LeaseSound(s, s.processes[p]) && LeaseSound(s, s.processes[q]);
  }

  lemma OneMore(before: set<string>, after: set<string>, x: string, max: int)
    requires after - {x} <= before - {x} && |before - {x}| < max
    ensures |after| <= max
  {
    SubsetSize(after - {x}, before - {x});
    assert after <= (after - {x}) + {x};
    SubsetSize(after, (after - {x}) + {x});
  }

  lemma OthersAsBefore(namespaces: map<string, Namespace>, name: string, ns: Namespace)
    ensures Consumers(namespaces[name := ns]) - {name} == Consumers(namespaces) - {name}
  {
  }

  predicate Adding(p: Process, clock: int) {
    (p.stage.Cleared? || p.stage.ReadNamespace?) && InTime(p, clock)
  }

  lemma OthersOutOfTime(s: State, pid: nat)
    requires LeasesSound(s) && pid in s.processes && s.processes[pid].stage.ReadNamespace?
    requires InTime(s.processes[pid], s.clock)
    ensures forall q | q in s.processes && q != pid :: !Adding(s.processes[q], s.clock)
  {
    assert LeaseSound(s, s.processes[pid]);
    forall q | q in s.processes && q != pid ensures !Adding(s.processes[q], s.clock) {
      assert LeaseSound(s, s.processes[q]);
      if Adding(s.processes[q], s.clock) { OneWriter(s, pid, q); }
    }
  }

  /** What the label commit does. */
  lemma LabelCommits(rules: Rules, s: State, pid: nat, target: string)
    requires rules.bounded && pid in s.processes && s.processes[pid].stage.ReadNamespace?
    ensures var t := JoinCall(rules, s, pid, target);
      && s.clock == t.clock && s.processes.Keys == t.processes.Keys
      && (forall q | q in t.processes && q != pid :: t.processes[q] == s.processes[q])
      && if t.processes[pid].stage.Over? then t.namespaces == s.namespaces
         else t.processes[pid].stage.Labelled? && InTime(s.processes[pid], s.clock)
              && target in t.namespaces && t.namespaces == s.namespaces[target := t.namespaces[target]]
  {
    hide InTime;
  }

  lemma NobodyAdds(rules: Rules, s: State, t: State, pid: nat)
    requires s.clock == t.clock && |Consumers(t.namespaces)| <= rules.max
    requires forall q | q in t.processes && q != pid :: q in s.processes && t.processes[q] == s.processes[q]
    requires forall q | q in s.processes && q != pid :: !Adding(s.processes[q], s.clock)
    requires pid in t.processes ==> t.processes[pid].stage.Labelled?
    ensures WithinCapacity(rules, t)
  {
    hide Consumers, InTime;
  }

  /** The label commit: the one step that adds a consumer. */
  lemma LabelKeepsCapacity(rules: Rules, s: State, pid: nat)
    requires rules.bounded && LeasesSound(s) && WithinCapacity(rules, s)
    requires pid in s.processes && s.processes[pid].role.Register? && s.processes[pid].stage.ReadNamespace?
    ensures WithinCapacity(rules, JoinCall(rules, s, pid, s.processes[pid].role.target))
  {
    var target := s.processes[pid].role.target;
    var t := JoinCall(rules, s, pid, target);
    hide LeasesSound, WithinCapacity, Consumers, InTime, JoinCall, Adding;
    LabelCommits(rules, s, pid, target);
    if t.processes[pid].stage.Over? {
      NobodyLabelled(rules, s, t, pid);
    } else {
      ProcessHasRoom(rules, s, pid);
      OthersAsBefore(s.namespaces, target, t.namespaces[target]);
      OneMore(Consumers(s.namespaces), Consumers(t.namespaces), target, rules.max);
      OthersOutOfTime(s, pid);
      NobodyAdds(rules, s, t, pid);
    }
  }

  lemma RoomBeside(rules: Rules, namespaces: map<string, Namespace>, target: string)
    requires |Consumers(namespaces)| <= rules.max
    requires target in Consumers(namespaces) || |Consumers(namespaces)| < rules.max
    ensures |Consumers(namespaces) - {target}| < rules.max
  {
    var c := Consumers(namespaces);
    if target in c { assert |c - {target}| == |c| - 1; } else { assert c - {target} == c; }
  }

  /** isConsumer found the label, or the count found room. */
  lemma ClearedWithRoom(rules: Rules, s: State, pid: nat, target: string)
    requires rules.max > 0 && pid in s.processes && Checking(s.processes[pid].stage)
    ensures CheckCall(rules, s, pid, target).processes[pid].stage.Cleared? ==>
              target in Consumers(s.namespaces) || |Consumers(s.namespaces)| < rules.max
  {
    assert target in Consumers(s.namespaces) <==> target in s.namespaces && s.namespaces[target].labelled;
    hide Consumers, Open;
  }

  lemma CheckLeavesRoom(rules: Rules, s: State, pid: nat, target: string)
    requires rules.max > 0 && |Consumers(s.namespaces)| <= rules.max
    requires pid in s.processes && s.processes[pid].role == Register(target) && Checking(s.processes[pid].stage)
    ensures var t := CheckCall(rules, s, pid, target); RoomLeft(rules, t, t.processes[pid])
  {
    CheckCallStage(rules, s, pid, target);
    ClearedWithRoom(rules, s, pid, target);
    hide CheckCall, Consumers, InTime;
    var t := CheckCall(rules, s, pid, target);
    if t.processes[pid].stage.Cleared? {
      RoomBeside(rules, s.namespaces, target);
    } else {
      CheckNeverReads(rules, s, pid, target);
    }
  }

  lemma CheckNeverReads(rules: Rules, s: State, pid: nat, target: string)
    requires pid in s.processes && Checking(s.processes[pid].stage)
    ensures !CheckCall(rules, s, pid, target).processes[pid].stage.ReadNamespace?
  {
    hide Consumers, Open;
  }

  lemma JoinLeavesRoom(rules: Rules, s: State, pid: nat, target: string)
    requires pid in s.processes && s.processes[pid].role == Register(target)
    requires !Acquiring(s.processes[pid].stage) && !Checking(s.processes[pid].stage)
    requires !s.processes[pid].stage.ReadNamespace?
    requires RoomLeft(rules, s, s.processes[pid])
    ensures var t := JoinCall(rules, s, pid, target); RoomLeft(rules, t, t.processes[pid])
  {
    JoinCallStage(rules, s, pid, target);
    OnlyClearedReads(rules, s, pid, target);
    hide JoinCall, Consumers;
  }

  lemma OnlyClearedReads(rules: Rules, s: State, pid: nat, target: string)
    requires pid in s.processes && !s.processes[pid].stage.ReadNamespace?
    ensures var g := JoinCall(rules, s, pid, target).processes[pid].stage;
      g.Cleared? || g.ReadNamespace? ==> s.processes[pid].stage.Cleared?
  {
    hide InTime, Open;
  }

  lemma ProcessHasRoom(rules: Rules, s: State, pid: nat)
    requires WithinCapacity(rules, s) && pid in s.processes
    ensures RoomLeft(rules, s, s.processes[pid]) && |Consumers(s.namespaces)| <= rules.max
  {
  }

  lemma CheckKeepsCapacity(rules: Rules, s: State, pid: nat, target: string)
    requires rules.max > 0 && WithinCapacity(rules, s)
    requires pid in s.processes && s.processes[pid].role == Register(target) && Checking(s.processes[pid].stage)
    ensures WithinCapacity(rules, CheckCall(rules, s, pid, target))
  {
    hide WithinCapacity, Consumers, RoomLeft, CheckCall;
    ProcessHasRoom(rules, s, pid);
    CheckLeavesRoom(rules, s, pid, target);
    CheckCallStage(rules, s, pid, target);
    NobodyLabelled(rules, s, CheckCall(rules, s, pid, target), pid);
  }

  lemma JoinKeepsCapacity(rules: Rules, s: State, pid: nat, target: string)
    requires WithinCapacity(rules, s)
    requires pid in s.processes && s.processes[pid].role == Register(target)
    requires !Acquiring(s.processes[pid].stage) && !Checking(s.processes[pid].stage)
    requires !s.processes[pid].stage.ReadNamespace?
    ensures WithinCapacity(rules, JoinCall(rules, s, pid, target))
  {
    hide WithinCapacity, Consumers, RoomLeft, JoinCall;
    ProcessHasRoom(rules, s, pid);
    JoinLeavesRoom(rules, s, pid, target);
    JoinCallStage(rules, s, pid, target);
    NobodyLabelled(rules, s, JoinCall(rules, s, pid, target), pid);
  }

  lemma RegisterCallKeepsCapacity(rules: Rules, s: State, pid: nat, target: string)
    requires rules.bounded && rules.max > 0 && LeasesSound(s) && WithinCapacity(rules, s)
    requires pid in s.processes && s.processes[pid].role == Register(target) && !Acquiring(s.processes[pid].stage)
    ensures WithinCapacity(rules, RegisterCall(rules, s, pid, target))
  {
    hide LeasesSound, WithinCapacity, CheckCall, JoinCall;
    if Checking(s.processes[pid].stage) {
      CheckKeepsCapacity(rules, s, pid, target);
    } else if s.processes[pid].stage.ReadNamespace? {
      LabelKeepsCapacity(rules, s, pid);
    } else {
      JoinKeepsCapacity(rules, s, pid, target);
    }
  }

  /** Acquiring the lease, and draining, labels nobody and leaves the label stages alone. */
  lemma OtherCallsAreQuiet(rules: Rules, s: State, pid: nat)
    requires pid in s.processes && (Acquiring(s.processes[pid].stage) || s.processes[pid].role.Drain?)
    ensures var t := Call(rules, s, pid);
      && s.namespaces == t.namespaces && s.clock == t.clock && s.processes.Keys == t.processes.Keys
      && (forall q | q in t.processes && q != pid :: t.processes[q] == s.processes[q])
      && t.processes[pid].role == s.processes[pid].role
      && (Acquiring(s.processes[pid].stage) ==>
            Acquiring(t.processes[pid].stage) || t.processes[pid].stage.Over? || t.processes[pid].stage.Leased?)
  {
    hide Consumers, Expired, InTime;
  }

  lemma CallKeepsCapacity(rules: Rules, s: State, pid: nat)
    requires rules.bounded && rules.max > 0 && LeasesSound(s) && WithinCapacity(rules, s) && pid in s.processes
    ensures WithinCapacity(rules, Call(rules, s, pid))
  {
    var p := s.processes[pid];
    if !Acquiring(p.stage) && p.role.Register? {
      hide LeasesSound, WithinCapacity, Consumers, RegisterCall;
      RegisterCallKeepsCapacity(rules, s, pid, p.role.target);
    } else {
      hide Call, WithinCapacity, Consumers;
      OtherCallsAreQuiet(rules, s, pid);
      NobodyLabelled(rules, s, Call(rules, s, pid), pid);
    }
  }

  lemma LostReplyKeepsCapacity(rules: Rules, s: State, pid: nat)
    requires rules.bounded && rules.max > 0 && LeasesSound(s) && WithinCapacity(rules, s) && pid in s.processes
    ensures WithinCapacity(rules, LostReply(rules, s, pid))
  {
    hide LeasesSound, WithinCapacity, Consumers, Call, InTime;
    var t := LostReply(rules, s, pid);
    var g := s.processes[pid].stage;
    if g.FoundExpired? || g.FoundNone? || g.ReadNamespace? {
      CallKeepsCapacity(rules, s, pid);
      CallKeepsProcess(rules, s, pid);
      NobodyLabelled(rules, Call(rules, s, pid), t, pid);
    } else {
      NobodyLabelled(rules, s, t, pid);
    }
  }

  lemma SurroundingsLabelNobody(rules: Rules, s: State, a: Action)
    ensures var t := Surroundings(rules, s, a);
      Consumers(t.namespaces) <= Consumers(s.namespaces) && s.processes == t.processes && s.clock == t.clock
  {
  }

  lemma DepartLabelsNobody(s: State, pid: nat)
    requires pid in s.processes
    ensures var t := Depart(s, pid);
      && s.namespaces == t.namespaces && s.clock == t.clock && t.processes.Keys <= s.processes.Keys
      && (forall q | q in t.processes && q != pid :: t.processes[q] == s.processes[q])
      && (pid in t.processes ==> t.processes[pid].stage.Drained?)
  {
  }

  lemma ReleaseLabelsNobody(s: State, pid: nat)
    requires pid in s.processes
    ensures var t := ReleaseCall(s, pid);
      && s.namespaces == t.namespaces && s.clock == t.clock && t.processes.Keys <= s.processes.Keys
      && (forall q | q in t.processes && q != pid :: t.processes[q] == s.processes[q])
      && (pid in t.processes ==> t.processes[pid].stage.Drained?)
  {
  }

  /** A process begins, or ends. */
  lemma OwnStepKeepsCapacity(rules: Rules, s: State, a: Action)
    requires WithinCapacity(rules, s) && (a.Spawn? || a.Stamp? || a.Fail? || a.Crash?)
    ensures WithinCapacity(rules, Apply(rules, s, a))
  {
    hide WithinCapacity, Consumers, InTime;
    if Apply(rules, s, a) != s { NobodyLabelled(rules, s, Apply(rules, s, a), a.pid); }
  }

  lemma LeavingKeepsCapacity(rules: Rules, s: State, a: Action)
    requires WithinCapacity(rules, s) && (a.Release? || a.LeaveLease?)
    ensures WithinCapacity(rules, Apply(rules, s, a))
  {
    hide WithinCapacity, Consumers, InTime, ReleaseCall, Depart;
    if Apply(rules, s, a) != s {
      ReleaseLabelsNobody(s, a.pid);
      DepartLabelsNobody(s, a.pid);
      NobodyLabelled(rules, s, Apply(rules, s, a), a.pid);
    }
  }

  lemma StepKeepsCapacity(rules: Rules, s: State, a: Action)
    requires rules.bounded && rules.max > 0 && LeasesSound(s) && WithinCapacity(rules, s)
    ensures WithinCapacity(rules, Apply(rules, s, a))
  {
    hide LeasesSound, WithinCapacity, Call, LostReply, Surroundings, ReleaseCall, Depart, Consumers;
    match a {
      case Proceed(pid) => if pid in s.processes { CallKeepsCapacity(rules, s, pid); }
      case LoseReply(pid) => if pid in s.processes { LostReplyKeepsCapacity(rules, s, pid); }
      case Tick(_) => NobodyLabelledAtAll(rules, s, Apply(rules, s, a));
      case Spawn(_, _) => OwnStepKeepsCapacity(rules, s, a);
      case Stamp(_) => OwnStepKeepsCapacity(rules, s, a);
      case Fail(_) => OwnStepKeepsCapacity(rules, s, a);
      case Crash(_) => OwnStepKeepsCapacity(rules, s, a);
      case Release(_) => LeavingKeepsCapacity(rules, s, a);
      case LeaveLease(_) => LeavingKeepsCapacity(rules, s, a);
      case _ => SurroundingsLabelNobody(rules, s, a); NobodyLabelledAtAll(rules, s, Apply(rules, s, a));
    }
  }

  lemma {:induction false} RunKeepsCapacity(rules: Rules, s: State, run: seq<Action>)
    requires rules.bounded && rules.max > 0 && LeasesSound(s) && WithinCapacity(rules, s)
    ensures WithinCapacity(rules, Execute(rules, s, run))
    decreases |run|
  {
    if run != [] {
      StepKeepsLeases(rules, s, run[0]);
      StepKeepsCapacity(rules, s, run[0]);
      RunKeepsCapacity(rules, Apply(rules, s, run[0]), run[1..]);
    }
  }

  /** In every run of registrations, drains, crashes and takeovers of expired leases, at
      most maxConsumers namespaces are labelled at any time. */
  lemma CapacityHolds(rules: Rules, run: seq<Action>)
    requires rules.bounded && rules.max > 0
    ensures |Consumers(Execute(rules, INITIAL, run).namespaces)| <= rules.max
  {
    assert Consumers(INITIAL.namespaces) == {};
    RunKeepsCapacity(rules, INITIAL, run);
  }
}
