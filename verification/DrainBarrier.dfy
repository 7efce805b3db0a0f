/**
  The drain barrier: once consumersDrained answered true for a component, no consumer
  admitted to it is left and none is admitted again. Nothing here looks at the lease.
 */
module DrainBarrier {
  import opened Wrappers
  import opened SharedAdmission

  /** `u` was a component's UID, and no component that may still admit carries it. */
  ghost predicate Condemned(s: State, u: nat) {
    u < s.next && (s.component.Some? && s.component.value.uid == u ==> s.component.value.deleting)
  }

  ghost predicate Gone(s: State, x: nat) {
    x < s.next && forall n | n in s.namespaces :: s.namespaces[n].uid != x
  }

  /** The namespace `x` carries the consumer label for as long as it exists. */
  ghost predicate Marked(s: State, x: nat) {
    x < s.next && forall n | n in s.namespaces && s.namespaces[n].uid == x :: s.namespaces[n].labelled
  }

  ghost predicate UidsIssued(s: State) {
    && (s.component.Some? ==> s.component.value.uid < s.next)
    && (forall n | n in s.namespaces :: s.namespaces[n].uid < s.next)
    && (forall m, n | m in s.namespaces && n in s.namespaces && s.namespaces[m].uid == s.namespaces[n].uid :: m == n)
  }

  ghost predicate ProcessSound(s: State, p: Process) {
    match p.stage
    case Labelled(u, x) => Marked(s, x)
    case Confirmed(u, x) => (u, x) in s.confirmed
    case SawDeleting => p.role.Drain? && Condemned(s, p.role.uid)
    case Empty => p.role.Drain? && p.role.uid in s.drained
    case Drained => p.role.Drain? && p.role.uid in s.drained
    case _ => true
  }

  ghost predicate HistorySound(s: State) {
    && (forall c | c in s.confirmed :: Marked(s, c.1))
    && s.admitted <= s.confirmed
    && s.uninstalled <= s.drained
    && (forall u | u in s.drained :: Condemned(s, u))
    && (forall c | c in s.confirmed && c.0 in s.drained :: Gone(s, c.1))
  }

  ghost predicate Inv(s: State) {
    && UidsIssued(s)
    && (forall pid | pid in s.processes :: ProcessSound(s, s.processes[pid]))
    && HistorySound(s)
  }

  /** What no step undoes. */
  ghost predicate Grows(s: State, t: State) {
    && s.next <= t.next
    && (forall u | Condemned(s, u) :: Condemned(t, u))
    && (forall x | Gone(s, x) :: Gone(t, x))
    && (forall x | Marked(s, x) :: Marked(t, x))
    && s.confirmed <= t.confirmed
    && s.drained <= t.drained
  }

  /** The part of the state that Grows speaks about beside the history. */
  ghost predicate SameObjects(s: State, t: State) {
    s.component == t.component && s.namespaces == t.namespaces && s.next <= t.next
  }

  /** A namespace appears with a new UID, or keeps its UID and its label. */
  lemma WriteGrows(s: State, t: State, name: string, ns: Namespace)
    requires UidsIssued(s) && s.component == t.component && t.next == s.next + 1
    requires s.confirmed <= t.confirmed && s.drained <= t.drained
    requires t.namespaces == s.namespaces[name := ns]
    requires if name in s.namespaces
             then ns.uid == s.namespaces[name].uid && (s.namespaces[name].labelled ==> ns.labelled)
             else ns.uid == s.next
    ensures UidsIssued(t) && Grows(s, t)
  {
    forall m, n | m in t.namespaces && n in t.namespaces && t.namespaces[m].uid == t.namespaces[n].uid ensures m == n {
      assert m != name ==> t.namespaces[m] == s.namespaces[m];
      assert n != name ==> t.namespaces[n] == s.namespaces[n];
    }
  }

  lemma NamespacesGrow(rules: Rules, s: State, a: Action)
    requires UidsIssued(s) && (a.CreateNamespace? || a.TouchNamespace? || a.RemoveNamespace?)
    ensures UidsIssued(Surroundings(rules, s, a)) && Grows(s, Surroundings(rules, s, a))
  {
    var t := Surroundings(rules, s, a);
    if t == s || a.RemoveNamespace? {
    } else {
      hide UidsIssued, Grows;
      WriteGrows(s, t, a.name, t.namespaces[a.name]);
    }
  }

  lemma ComponentGrows(rules: Rules, s: State, a: Action)
    requires UidsIssued(s) && !a.CreateNamespace? && !a.TouchNamespace? && !a.RemoveNamespace?
    ensures UidsIssued(Surroundings(rules, s, a)) && Grows(s, Surroundings(rules, s, a))
  {
    assert s.namespaces == Surroundings(rules, s, a).namespaces;
  }

  lemma SurroundingsGrow(rules: Rules, s: State, a: Action)
    requires UidsIssued(s)
    ensures UidsIssued(Surroundings(rules, s, a)) && Grows(s, Surroundings(rules, s, a))
  {
    hide *;
    if a.CreateNamespace? || a.TouchNamespace? || a.RemoveNamespace? {
      NamespacesGrow(rules, s, a);
    } else {
      ComponentGrows(rules, s, a);
    }
  }

  /** A step that touches neither the component nor a namespace undoes nothing. */
  lemma SameGrows(s: State, t: State)
    requires UidsIssued(s) && SameObjects(s, t) && s.confirmed <= t.confirmed && s.drained <= t.drained
    ensures UidsIssued(t) && Grows(s, t)
  {
  }

  lemma LabelGrows(rules: Rules, s: State, pid: nat, target: string)
    requires UidsIssued(s) && pid in s.processes && s.processes[pid].stage.ReadNamespace?
    ensures var t := JoinCall(rules, s, pid, target); UidsIssued(t) && Grows(s, t)
  {
    hide UidsIssued, Grows, InTime;
    var t := JoinCall(rules, s, pid, target);
    if t.processes[pid].stage.Over? {
      SameGrows(s, t);
    } else {
      WriteGrows(s, t, target, t.namespaces[target]);
    }
  }

  lemma RegisterCallGrows(rules: Rules, s: State, pid: nat, target: string)
    requires UidsIssued(s) && pid in s.processes
    ensures var t := RegisterCall(rules, s, pid, target); UidsIssued(t) && Grows(s, t)
  {
    hide UidsIssued, Grows, InTime, Consumers, Open;
    if s.processes[pid].stage.ReadNamespace? {
      LabelGrows(rules, s, pid, target);
    } else {
      SameGrows(s, RegisterCall(rules, s, pid, target));
    }
  }

  lemma AcquireGrows(rules: Rules, s: State, pid: nat)
    requires UidsIssued(s) && pid in s.processes && Acquiring(s.processes[pid].stage)
    ensures var t := Call(rules, s, pid); UidsIssued(t) && Grows(s, t)
  {
    hide UidsIssued, Grows, InTime, Expired;
    SameGrows(s, Call(rules, s, pid));
  }

  lemma DrainCallGrows(s: State, pid: nat, uid: nat)
    requires UidsIssued(s) && pid in s.processes
    ensures var t := DrainCall(s, pid, uid); UidsIssued(t) && Grows(s, t)
  {
    hide UidsIssued, Grows, InTime, Consumers;
    SameGrows(s, DrainCall(s, pid, uid));
  }

  lemma CallGrows(rules: Rules, s: State, pid: nat)
    requires UidsIssued(s) && pid in s.processes
    ensures UidsIssued(Call(rules, s, pid)) && Grows(s, Call(rules, s, pid))
  {
    hide UidsIssued, Grows, RegisterCall, DrainCall;
    var p := s.processes[pid];
    if Acquiring(p.stage) {
      AcquireGrows(rules, s, pid);
    } else if p.role.Register? {
      RegisterCallGrows(rules, s, pid, p.role.target);
    } else {
      DrainCallGrows(s, pid, p.role.uid);
    }
  }

  lemma LostReplyGrows(rules: Rules, s: State, pid: nat)
    requires UidsIssued(s) && pid in s.processes
    ensures var t := LostReply(rules, s, pid); UidsIssued(t) && Grows(s, t)
  {
    hide Call, UidsIssued, Grows;
    CallGrows(rules, s, pid);
    var u, t := Call(rules, s, pid), LostReply(rules, s, pid);
    if SameObjects(u, t) && u.confirmed == t.confirmed && u.drained == t.drained {
      GrowsOn(s, u, t);
    } else {
      SameGrows(s, t);
    }
  }

  lemma GrowsOn(s: State, u: State, t: State)
    requires Grows(s, u) && UidsIssued(u) && SameObjects(u, t) && u.confirmed == t.confirmed && u.drained == t.drained
    ensures UidsIssued(t) && Grows(s, t)
  {
  }

  lemma DepartureGrows(s: State, pid: nat)
    requires UidsIssued(s) && pid in s.processes
    ensures UidsIssued(ReleaseCall(s, pid)) && Grows(s, ReleaseCall(s, pid))
    ensures UidsIssued(Depart(s, pid)) && Grows(s, Depart(s, pid))
  {
    hide UidsIssued, Grows;
    SameGrows(s, ReleaseCall(s, pid));
    SameGrows(s, Depart(s, pid));
  }

  lemma StepGrows(rules: Rules, s: State, a: Action)
    requires UidsIssued(s)
    ensures UidsIssued(Apply(rules, s, a)) && Grows(s, Apply(rules, s, a))
  {
    hide UidsIssued, Grows, Call, LostReply, ReleaseCall, Depart, Surroundings;
    if (a.Proceed? || a.LoseReply? || a.Release? || a.LeaveLease?) && a.pid in s.processes {
      CallGrows(rules, s, a.pid);
      LostReplyGrows(rules, s, a.pid);
      DepartureGrows(s, a.pid);
      SameGrows(s, s);
    } else if a.Tick? || a.Spawn? || a.Stamp? || a.Proceed? || a.Fail? || a.LoseReply? || a.Release? || a.LeaveLease?
              || a.Crash? {
      SameGrows(s, Apply(rules, s, a));
    } else {
      SurroundingsGrow(rules, s, a);
    }
  }

  /** At most process `pid` moved or left. */
  ghost predicate OnlyMoved(s: State, t: State, pid: nat) {
    forall q | q in t.processes && q != pid :: q in s.processes && t.processes[q] == s.processes[q]
  }

  ghost predicate SameHistory(s: State, t: State) {
    && s.confirmed == t.confirmed && s.admitted == t.admitted
    && s.drained == t.drained && s.uninstalled == t.uninstalled
  }

  /** A step that writes no history keeps the invariant when the process it moved is sound. */
  lemma KeptByGrowth(s: State, t: State, pid: nat)
    requires Inv(s) && UidsIssued(t) && Grows(s, t)
    requires OnlyMoved(s, t, pid) && SameHistory(s, t)
    requires pid in t.processes ==> ProcessSound(t, t.processes[pid])
    ensures Inv(t)
  {
    forall q | q in t.processes ensures ProcessSound(t, t.processes[q]) {
      if q != pid { assert ProcessSound(s, s.processes[q]); }
    }
  }

  lemma KeptAsAWhole(s: State, t: State)
    requires Inv(s) && UidsIssued(t) && Grows(s, t) && s.processes == t.processes && SameHistory(s, t)
    ensures Inv(t)
  {
    forall q | q in t.processes ensures ProcessSound(t, t.processes[q]) {
      assert ProcessSound(s, s.processes[q]);
    }
  }

  lemma OthersStaySound(s: State, t: State, pid: nat)
    requires Inv(s) && Grows(s, t)
    requires OnlyMoved(s, t, pid)
    requires pid in t.processes ==> ProcessSound(t, t.processes[pid])
    ensures forall q | q in t.processes :: ProcessSound(t, t.processes[q])
  {
    forall q | q in t.processes ensures ProcessSound(t, t.processes[q]) {
      if q != pid { assert ProcessSound(s, s.processes[q]); }
    }
  }

  /** The second read: an open component is not condemned, so it has not been drained. */
  lemma ConfirmKeepsInv(rules: Rules, s: State, pid: nat, target: string)
    requires Inv(s) && pid in s.processes && s.processes[pid].stage.Labelled?
    ensures Inv(RegisterCall(rules, s, pid, target))
  {
    var t := RegisterCall(rules, s, pid, target);
    assert ProcessSound(s, s.processes[pid]);
    SameGrows(s, t);
    hide Grows, UidsIssued, InTime;
    OthersStaySound(s, t, pid);
    HistoryConfirms(s, t, s.processes[pid].stage.uid, s.processes[pid].stage.nsUid);
  }

  lemma HistoryConfirms(s: State, t: State, u: nat, x: nat)
    requires HistorySound(s) && Grows(s, t) && Marked(t, x)
    requires t.confirmed == s.confirmed
             || (t.confirmed == s.confirmed + {(u, x)} && Open(s.component) && s.component.value.uid == u)
    requires s.admitted == t.admitted && s.drained == t.drained && s.uninstalled == t.uninstalled
    ensures HistorySound(t)
  {
    assert Open(s.component) && s.component.value.uid == u ==> !Condemned(s, u);
  }

  lemma RegisterCallKeepsInv(rules: Rules, s: State, pid: nat, target: string)
    requires Inv(s) && pid in s.processes
    ensures Inv(RegisterCall(rules, s, pid, target))
  {
    hide *;
    if s.processes[pid].stage.Labelled? {
      ConfirmKeepsInv(rules, s, pid, target);
    } else if s.processes[pid].stage.Confirmed? {
      ReportKeepsInv(rules, s, pid, target);
    } else {
      OtherCallKeepsInv(rules, s, pid, target);
    }
  }

  /** What is reported was confirmed. */
  lemma ReportKeepsInv(rules: Rules, s: State, pid: nat, target: string)
    requires Inv(s) && pid in s.processes && s.processes[pid].stage.Confirmed?
    ensures Inv(RegisterCall(rules, s, pid, target))
  {
    hide Grows, UidsIssued, HistorySound, InTime;
    var t := RegisterCall(rules, s, pid, target);
    RegisterCallGrows(rules, s, pid, target);
    assert ProcessSound(s, s.processes[pid]);
    OthersStaySound(s, t, pid);
    AdmittedAreConfirmed(s);
    HistoryGrows(s, t);
  }

  lemma AdmittedAreConfirmed(s: State)
    requires HistorySound(s)
    ensures s.admitted <= s.confirmed && s.uninstalled <= s.drained
  {
  }

  lemma OtherCallKeepsInv(rules: Rules, s: State, pid: nat, target: string)
    requires Inv(s) && pid in s.processes && !s.processes[pid].stage.Labelled? && !s.processes[pid].stage.Confirmed?
    ensures Inv(RegisterCall(rules, s, pid, target))
  {
    assert ProcessSound(s, s.processes[pid]) && UidsIssued(s);
    hide *;
    RegisterCallGrows(rules, s, pid, target);
    RegisterCallMoves(rules, s, pid, target);
    RegisterSound(rules, s, pid, target);
    KeptByGrowth(s, RegisterCall(rules, s, pid, target), pid);
  }

  lemma RegisterCallMoves(rules: Rules, s: State, pid: nat, target: string)
    requires pid in s.processes && !s.processes[pid].stage.Labelled? && !s.processes[pid].stage.Confirmed?
    ensures var t := RegisterCall(rules, s, pid, target); OnlyMoved(s, t, pid) && SameHistory(s, t)
  {
    hide InTime, Consumers, Open;
  }

  lemma RegisterSound(rules: Rules, s: State, pid: nat, target: string)
    requires UidsIssued(s) && pid in s.processes && ProcessSound(s, s.processes[pid])
    requires !s.processes[pid].stage.Labelled? && !s.processes[pid].stage.Confirmed?
    ensures var t := RegisterCall(rules, s, pid, target); ProcessSound(t, t.processes[pid])
  {
    hide InTime, Consumers, Open;
  }

  lemma HistoryGrows(s: State, t: State)
    requires HistorySound(s) && Grows(s, t)
    requires s.confirmed == t.confirmed && t.admitted <= t.confirmed
    requires s.drained == t.drained && t.uninstalled <= t.drained
    ensures HistorySound(t)
  {
  }

  /** The live list is empty: a namespace that is marked and still there would be on it. */
  lemma EmptyMeansGone(s: State, x: nat)
    requires Consumers(s.namespaces) == {} && Marked(s, x)
    ensures Gone(s, x)
  {
    forall n | n in s.namespaces ensures s.namespaces[n].uid != x { assert n !in Consumers(s.namespaces); }
  }

  lemma CountKeepsInv(s: State, pid: nat, uid: nat)
    requires Inv(s) && pid in s.processes && s.processes[pid].role == Drain(uid)
    requires s.processes[pid].stage.SawDeleting?
    ensures Inv(DrainCall(s, pid, uid))
  {
    var t := DrainCall(s, pid, uid);
    assert ProcessSound(s, s.processes[pid]);
    SameGrows(s, t);
    hide Grows, UidsIssued, InTime, Consumers;
    OthersStaySound(s, t, pid);
    if t.drained == s.drained {
      HistoryGrows(s, t);
    } else {
      HistoryDrains(s, t, uid);
    }
  }

  lemma HistoryDrains(s: State, t: State, uid: nat)
    requires HistorySound(s) && Grows(s, t) && Consumers(s.namespaces) == {} && Condemned(t, uid)
    requires s.confirmed == t.confirmed && s.admitted == t.admitted && s.uninstalled == t.uninstalled
    requires t.drained == s.drained + {uid}
    ensures HistorySound(t)
  {
    hide Consumers;
    forall c | c in s.confirmed ensures Gone(t, c.1) { EmptyMeansGone(s, c.1); }
  }

  lemma DrainCallKeepsInv(s: State, pid: nat, uid: nat)
    requires Inv(s) && pid in s.processes && s.processes[pid].role == Drain(uid)
    ensures Inv(DrainCall(s, pid, uid))
  {
    if s.processes[pid].stage.SawDeleting? {
      CountKeepsInv(s, pid, uid);
    } else {
      hide Grows, UidsIssued;
      var t := DrainCall(s, pid, uid);
      DrainCallGrows(s, pid, uid);
      assert ProcessSound(s, s.processes[pid]);
      OthersStaySound(s, t, pid);
      HistoryGrows(s, t);
    }
  }

  lemma CallKeepsInv(rules: Rules, s: State, pid: nat)
    requires Inv(s) && pid in s.processes
    ensures Inv(Call(rules, s, pid))
  {
    hide Grows, UidsIssued, HistorySound;
    var p := s.processes[pid];
    if Acquiring(p.stage) {
      AcquireGrows(rules, s, pid);
      var t := Call(rules, s, pid);
      KeptByGrowth(s, t, pid);
    } else if p.role.Register? {
      RegisterCallKeepsInv(rules, s, pid, p.role.target);
    } else {
      DrainCallKeepsInv(s, pid, p.role.uid);
    }
  }

  lemma LostReplyKeepsInv(rules: Rules, s: State, pid: nat)
    requires Inv(s) && pid in s.processes
    ensures Inv(LostReply(rules, s, pid))
  {
    hide Grows, UidsIssued, HistorySound;
    LostReplyGrows(rules, s, pid);
    KeptByGrowth(s, LostReply(rules, s, pid), pid);
  }

  lemma SurroundingsKeepInv(rules: Rules, s: State, a: Action)
    requires Inv(s)
    ensures Inv(Surroundings(rules, s, a))
  {
    hide Grows, UidsIssued, HistorySound, ProcessSound;
    var t := Surroundings(rules, s, a);
    SurroundingsGrow(rules, s, a);
    KeptAsAWhole(s, t);
  }

  lemma DepartureKeepsInv(s: State, t: State, pid: nat)
    requires Inv(s) && UidsIssued(t) && Grows(s, t)
    requires pid in s.processes && (t == ReleaseCall(s, pid) || t == Depart(s, pid))
    ensures Inv(t)
  {
    assert ProcessSound(s, s.processes[pid]);
    hide Grows, UidsIssued, HistorySound;
    KeptByGrowth(s, t, pid);
  }

  lemma OwnStepKeepsInv(rules: Rules, s: State, a: Action)
    requires Inv(s) && (a.Spawn? || a.Stamp? || a.Fail? || a.Crash?)
    ensures Inv(Apply(rules, s, a))
  {
    StepGrows(rules, s, a);
    hide Inv, Grows, UidsIssued, HistorySound;
    KeptByGrowth(s, Apply(rules, s, a), a.pid);
  }

  lemma TimeKeepsInv(rules: Rules, s: State, elapsed: nat)
    requires Inv(s)
    ensures Inv(Apply(rules, s, Tick(elapsed)))
  {
    StepGrows(rules, s, Tick(elapsed));
    hide Inv, Grows, UidsIssued, HistorySound, ProcessSound;
    KeptAsAWhole(s, Apply(rules, s, Tick(elapsed)));
  }

  lemma LeavingKeepsInv(rules: Rules, s: State, a: Action)
    requires Inv(s) && (a.Release? || a.LeaveLease?)
    ensures Inv(Apply(rules, s, a))
  {
    StepGrows(rules, s, a);
    hide Inv, Grows, UidsIssued, HistorySound, ReleaseCall, Depart;
    if Apply(rules, s, a) != s { DepartureKeepsInv(s, Apply(rules, s, a), a.pid); }
  }

  lemma StepKeepsInv(rules: Rules, s: State, a: Action)
    requires Inv(s)
    ensures Inv(Apply(rules, s, a))
  {
    hide Inv, Call, LostReply, Surroundings, ReleaseCall, Depart;
    match a {
      case Proceed(pid) => if pid in s.processes { CallKeepsInv(rules, s, pid); }
      case LoseReply(pid) => if pid in s.processes { LostReplyKeepsInv(rules, s, pid); }
      case Spawn(_, _) => OwnStepKeepsInv(rules, s, a);
      case Stamp(_) => OwnStepKeepsInv(rules, s, a);
      case Fail(_) => OwnStepKeepsInv(rules, s, a);
      case Crash(_) => OwnStepKeepsInv(rules, s, a);
      case Release(_) => LeavingKeepsInv(rules, s, a);
      case LeaveLease(_) => LeavingKeepsInv(rules, s, a);
      case Tick(elapsed) => TimeKeepsInv(rules, s, elapsed);
      case _ => SurroundingsKeepInv(rules, s, a);
    }
  }

  lemma {:induction false} RunKeepsInv(rules: Rules, s: State, run: seq<Action>)
    requires Inv(s)
    ensures Inv(Execute(rules, s, run)) && Grows(s, Execute(rules, s, run))
    decreases |run|
  {
    if run != [] {
      StepGrows(rules, s, run[0]);
      StepKeepsInv(rules, s, run[0]);
      RunKeepsInv(rules, Apply(rules, s, run[0]), run[1..]);
    }
  }

  /** A drained component is condemned, so the second read cannot find it open. */
  lemma StepConfirmsNobody(rules: Rules, s: State, a: Action)
    requires Inv(s)
    ensures forall c | c in Apply(rules, s, a).confirmed && c.0 in s.drained :: c in s.confirmed
  {
    hide UidsIssued, ProcessSound;
    assert forall u | u in s.drained :: Condemned(s, u);
    hide HistorySound;
    if a.LoseReply? && a.pid in s.processes {
      var g := s.processes[a.pid].stage;
      assert !g.Labelled? || LostReply(rules, s, a.pid).confirmed == s.confirmed;
    }
  }

  /** A drained component confirms nobody any more, whatever runs next. */
  lemma {:induction false} NoLaterConfirmation(rules: Rules, s: State, run: seq<Action>)
    requires Inv(s)
    ensures forall c | c in Execute(rules, s, run).confirmed && c.0 in s.drained :: c in s.confirmed
    decreases |run|
  {
    hide Inv, Apply;
    if run != [] {
      var t := Apply(rules, s, run[0]);
      assert Inv(t) && s.drained <= t.drained by { StepKeepsInv(rules, s, run[0]); StepGrowsDrained(rules, s, run[0]); }
      StepConfirmsNobody(rules, s, run[0]);
      NoLaterConfirmation(rules, t, run[1..]);
    }
  }

  lemma StepGrowsDrained(rules: Rules, s: State, a: Action)
    requires Inv(s)
    ensures s.drained <= Apply(rules, s, a).drained
  {
    StepGrows(rules, s, a);
  }

  /** The barrier, for every interleaving of `before`, and of `after` the drain of `u`:
      all namespaces that a registration with `u` ever admitted are gone, for good, and
      no registration with `u` passes its second read of the component any more. An
      uninstall is only ever submitted for a component that was drained. */
  lemma DrainBarrier(rules: Rules, before: seq<Action>, after: seq<Action>, u: nat)
    requires u in Execute(rules, INITIAL, before).drained
    ensures var s := Execute(rules, INITIAL, before); var t := Execute(rules, s, after);
      && (forall x | (u, x) in t.admitted :: Gone(s, x) && Gone(t, x))
      && (forall x | (u, x) in t.confirmed :: (u, x) in s.confirmed)
      && u in t.drained && s.uninstalled <= s.drained
  {
    RunKeepsInv(rules, INITIAL, before);
    var s := Execute(rules, INITIAL, before);
    RunKeepsInv(rules, s, after);
    NoLaterConfirmation(rules, s, after);
    var t := Execute(rules, s, after);
    assert HistorySound(s) && HistorySound(t);
    forall x | (u, x) in t.admitted ensures Gone(s, x) && Gone(t, x) {
      assert (u, x) in t.confirmed;
      assert (u, x) in s.confirmed;
    }
  }
}
