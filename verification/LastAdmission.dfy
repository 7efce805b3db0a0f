/**
  With its lease respected, a registration cannot even return late: none that read the
  component before the drain reports success after it.
 */
module LastAdmission {
  import opened Wrappers
  import opened SharedAdmission
  import opened DrainBarrier
  import opened Capacity

  ghost predicate TooLate(s: State, p: Process) {
    p.stage.Confirmed? && p.stage.uid in s.drained ==> !InTime(p, s.clock)
  }

  ghost predicate NoneInFlight(s: State) {
    forall pid | pid in s.processes :: TooLate(s, s.processes[pid])
  }

  /** When a drain counts, every confirmed registration has run out of time. */
  lemma CountEndsFlights(s: State, pid: nat, uid: nat)
    requires LeasesSound(s) && NoneInFlight(s)
    requires pid in s.processes && s.processes[pid].stage.SawDeleting? && s.processes[pid].role.Drain?
    ensures NoneInFlight(DrainCall(s, pid, uid))
  {
    var t := DrainCall(s, pid, uid);
    forall q | q in t.processes ensures TooLate(t, t.processes[q]) {
      assert TooLate(s, s.processes[q]);
      assert LeaseSound(s, s.processes[q]) && LeaseSound(s, s.processes[pid]);
      if t != At(s, pid, t.processes[pid].stage) && s.processes[q].stage.Confirmed? && InTime(s.processes[q], s.clock) {
        OneWriter(s, pid, q);
      }
    }
  }

  /** The other steps neither drain nor confirm for a drained component. */
  lemma QuietStep(s: State, t: State, pid: nat)
    requires NoneInFlight(s) && s.drained == t.drained && s.clock <= t.clock
    requires OnlyMoved(s, t, pid)
    requires pid in t.processes && t.processes[pid].stage.Confirmed? ==>
               t.processes[pid].stage.uid !in t.drained
               || (pid in s.processes && s.processes[pid] == t.processes[pid])
    ensures NoneInFlight(t)
  {
    forall q | q in t.processes ensures TooLate(t, t.processes[q]) {
      if q in s.processes { assert TooLate(s, s.processes[q]); }
    }
  }

  /** Nothing is drained, and only an open component gets a confirmation. */
  ghost predicate ConfirmsOpen(s: State, t: State, pid: nat) {
    && s.drained == t.drained && s.clock == t.clock && OnlyMoved(s, t, pid)
    && (pid in t.processes && t.processes[pid].stage.Confirmed? ==>
          (pid in s.processes && t.processes[pid] == s.processes[pid])
          || (Open(s.component) && s.component.value.uid == t.processes[pid].stage.uid))
  }

  lemma AcquiringConfirmsNobody(rules: Rules, s: State, pid: nat)
    requires pid in s.processes && Acquiring(s.processes[pid].stage)
    ensures ConfirmsOpen(s, Call(rules, s, pid), pid)
  {
    hide Expired, InTime, Open;
  }

  lemma CheckConfirmsNobody(rules: Rules, s: State, pid: nat, target: string)
    requires pid in s.processes && Checking(s.processes[pid].stage)
    ensures ConfirmsOpen(s, CheckCall(rules, s, pid, target), pid)
  {
    hide Consumers, Open;
  }

  lemma JoinConfirmsOpen(rules: Rules, s: State, pid: nat, target: string)
    requires pid in s.processes
    ensures ConfirmsOpen(s, JoinCall(rules, s, pid, target), pid)
  {
    hide InTime, Open;
  }

  lemma DrainConfirmsNobody(s: State, pid: nat, uid: nat)
    requires pid in s.processes && !s.processes[pid].stage.SawDeleting?
    ensures ConfirmsOpen(s, DrainCall(s, pid, uid), pid)
  {
    hide Consumers, InTime, Open;
  }

  /** Only a registration that labelled confirms, and then the component is open. */
  lemma OnlyOpenIsConfirmed(rules: Rules, s: State, pid: nat)
    requires pid in s.processes && !s.processes[pid].stage.SawDeleting?
    ensures ConfirmsOpen(s, Call(rules, s, pid), pid)
  {
    hide ConfirmsOpen, CheckCall, JoinCall, DrainCall, ReadLease, JudgeLease, DeleteExpired, CreateLease;
    var p := s.processes[pid];
    if Acquiring(p.stage) {
      AcquiringConfirmsNobody(rules, s, pid);
    } else if p.role.Drain? {
      DrainConfirmsNobody(s, pid, p.role.uid);
    } else if Checking(p.stage) {
      CheckConfirmsNobody(rules, s, pid, p.role.target);
    } else {
      JoinConfirmsOpen(rules, s, pid, p.role.target);
    }
  }

  lemma CallEndsFlights(rules: Rules, s: State, pid: nat)
    requires Inv(s) && LeasesSound(s) && NoneInFlight(s) && pid in s.processes
    ensures NoneInFlight(Call(rules, s, pid))
  {
    assert ProcessSound(s, s.processes[pid]);
    if s.processes[pid].stage.SawDeleting? {
      CountEndsFlights(s, pid, s.processes[pid].role.uid);
    } else {
      assert forall u | u in s.drained :: Condemned(s, u);
      hide Inv, LeasesSound, NoneInFlight, Call;
      OnlyOpenIsConfirmed(rules, s, pid);
      QuietStep(s, Call(rules, s, pid), pid);
    }
  }

  lemma OwnStepIsQuiet(rules: Rules, s: State, a: Action)
    requires NoneInFlight(s) && (a.Spawn? || a.Stamp? || a.Fail? || a.Crash?)
    ensures NoneInFlight(Apply(rules, s, a))
  {
    hide NoneInFlight;
    QuietStep(s, Apply(rules, s, a), a.pid);
  }

  lemma LeavingIsQuiet(rules: Rules, s: State, a: Action)
    requires NoneInFlight(s) && (a.Release? || a.LeaveLease?)
    ensures NoneInFlight(Apply(rules, s, a))
  {
    hide NoneInFlight;
    QuietStep(s, Apply(rules, s, a), a.pid);
  }

  lemma OutsideIsQuiet(rules: Rules, s: State, a: Action)
    requires NoneInFlight(s)
    ensures NoneInFlight(Surroundings(rules, s, a))
  {
    hide NoneInFlight;
    QuietStep(s, Surroundings(rules, s, a), 0);
  }

  lemma StepEndsFlights(rules: Rules, s: State, a: Action)
    requires Inv(s) && LeasesSound(s) && NoneInFlight(s)
    ensures NoneInFlight(Apply(rules, s, a))
  {
    hide Inv, LeasesSound, NoneInFlight, Call, LostReply, ReleaseCall, Depart, Surroundings;
    match a {
      case Proceed(pid) => if pid in s.processes { CallEndsFlights(rules, s, pid); }
      case LoseReply(pid) =>
        if pid in s.processes {
          LostReplyIsQuiet(rules, s, pid);
          QuietStep(s, LostReply(rules, s, pid), pid);
        }
      case Spawn(_, _) => OwnStepIsQuiet(rules, s, a);
      case Stamp(_) => OwnStepIsQuiet(rules, s, a);
      case Fail(_) => OwnStepIsQuiet(rules, s, a);
      case Crash(_) => OwnStepIsQuiet(rules, s, a);
      case Release(_) => LeavingIsQuiet(rules, s, a);
      case LeaveLease(_) => LeavingIsQuiet(rules, s, a);
      case Tick(_) => QuietStep(s, Apply(rules, s, a), 0);
      case _ => OutsideIsQuiet(rules, s, a);
    }
  }

  lemma LostReplyIsQuiet(rules: Rules, s: State, pid: nat)
    requires pid in s.processes
    ensures var t := LostReply(rules, s, pid);
      && s.drained == t.drained && s.clock == t.clock && s.admitted == t.admitted
      && OnlyMoved(s, t, pid) && t.processes[pid].stage.Over?
  {
  }

  lemma StepAdmitsNobody(rules: Rules, s: State, a: Action)
    requires NoneInFlight(s)
    ensures forall c | c in Apply(rules, s, a).admitted && c.0 in s.drained :: c in s.admitted
  {
    if a.LoseReply? && a.pid in s.processes {
      LostReplyIsQuiet(rules, s, a.pid);
    } else if a.Proceed? && a.pid in s.processes {
      assert TooLate(s, s.processes[a.pid]);
    }
  }

  lemma {:induction false} NoLaterAdmission(rules: Rules, s: State, run: seq<Action>)
    requires rules.bounded && Inv(s) && LeasesSound(s) && NoneInFlight(s)
    ensures forall c | c in Execute(rules, s, run).admitted && c.0 in s.drained :: c in s.admitted
    ensures var t := Execute(rules, s, run); LeasesSound(t) && NoneInFlight(t)
    decreases |run|
  {
    hide Inv, LeasesSound, NoneInFlight, Apply;
    if run != [] {
      var t := Apply(rules, s, run[0]);
      StepKeepsInv(rules, s, run[0]);
      StepKeepsLeases(rules, s, run[0]);
      StepEndsFlights(rules, s, run[0]);
      StepAdmitsNobody(rules, s, run[0]);
      StepGrowsDrained(rules, s, run[0]);
      NoLaterAdmission(rules, t, run[1..]);
    }
  }

  /** After the drain of `u`, no registration with `u` returns success any more. */
  lemma AdmissionIsOver(rules: Rules, before: seq<Action>, after: seq<Action>, u: nat)
    requires rules.bounded && u in Execute(rules, INITIAL, before).drained
    ensures var s := Execute(rules, INITIAL, before);
      forall x | (u, x) in Execute(rules, s, after).admitted :: (u, x) in s.admitted
  {
    NoLaterAdmission(rules, INITIAL, before);
    RunKeepsInv(rules, INITIAL, before);
    NoLaterAdmission(rules, Execute(rules, INITIAL, before), after);
  }
}
