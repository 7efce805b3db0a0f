/**
  Admission to a shared component, and the drain that precedes its teardown, as a
  state machine: one step is one call to the API server, and any other actor may
  step between two of them.
 */
module SharedAdmission {
  import opened Wrappers

  // Times are in microseconds, the precision of a Lease's RenewTime.
  const WORK_WINDOW := 10_000_000
  const LEASE_DURATION := 30_000_000

  /** max is spec.maxConsumers. bounded says that a write with an expired context does
      not land and that only the operator deletes its leases. */
  datatype Rules = Rules(max: int, bounded: bool)

  datatype Component = Component(uid: nat, deleting: bool, ready: bool)

  datatype Namespace = Namespace(uid: nat, version: nat, labelled: bool)

  datatype Lease = Lease(uid: nat, version: nat, renewed: Option<int>)

  /** Who runs: a registration of the namespace `target`, or a drain of component `uid`. */
  datatype Role = Register(target: string) | Drain(uid: nat)

  /** What a call of registerConsumer or consumersDrained comes to; NotReady is also the
      drain's plain no. */
  datatype Verdict = Admitted(uid: nat, nsUid: nat) | NotReady | AtCapacity | Error

  /** Where a process is: named after what it already did. */
  datatype Stage =
    | Starting
    | SawLease(seen: Lease)
    | FoundExpired(seen: Lease)
    | FoundNone
    | Leased
    | Admissible(uid: nat)
    | NotConsumer(uid: nat)
    | Cleared(uid: nat)
    | ReadNamespace(uid: nat, ns: Namespace)
    | Labelled(uid: nat, nsUid: nat)
    | Confirmed(uid: nat, nsUid: nat)
    | SawDeleting
    | Empty
    | Drained
    | Over(verdict: Verdict)

  /** started opens the 10s context, stamp is the time written into the lease. */
  datatype Process = Process(role: Role, started: int, stamp: int, stage: Stage, lease: Option<Lease>)

  /** The last four fields are history: confirming reads, successful returns, finished
      drains and submitted uninstalls. Pairs are (component UID, namespace UID). */
  datatype State = State(
    clock: int,
    next: nat,
    component: Option<Component>,
    namespaces: map<string, Namespace>,
    lease: Option<Lease>,
    processes: map<nat, Process>,
    confirmed: set<(nat, nat)>,
    admitted: set<(nat, nat)>,
    drained: set<nat>,
    uninstalled: set<nat>)

  datatype Action =
    | Tick(elapsed: nat)
    | Spawn(pid: nat, role: Role)
    | Stamp(pid: nat)
    | Proceed(pid: nat)
    | Fail(pid: nat)
    | LoseReply(pid: nat)
    | Release(pid: nat)
    | LeaveLease(pid: nat)
    | Crash(pid: nat)
    | CreateComponent
    | SetReady(ready: bool)
    | DeleteComponent
    | RemoveComponent
    | CreateNamespace(name: string)
    | TouchNamespace(name: string)
    | RemoveNamespace(name: string)
    | ForeignLease
    | RemoveLease

  function Consumers(namespaces: map<string, Namespace>): set<string> {
    set n | n in namespaces && namespaces[n].labelled
  }

  predicate Expired(l: Lease, clock: int) {
    l.renewed.Some? && clock > l.renewed.value + LEASE_DURATION
  }

  predicate InTime(p: Process, clock: int) {
    clock <= p.started + WORK_WINDOW
  }

  function At(s: State, pid: nat, stage: Stage): State
    requires pid in s.processes
  {
    s.(processes := s.processes[pid := s.processes[pid].(stage := stage)])
  }

  /** acquireProvisionLease: read the lease, look at its age, delete it when expired,
      create one's own. */
  function ReadLease(s: State, pid: nat): State
    requires pid in s.processes
  {
    match s.lease
    case None => At(s, pid, FoundNone)
    case Some(l) => At(s, pid, SawLease(l))
  }

  function JudgeLease(s: State, pid: nat, seen: Lease): State
    requires pid in s.processes
  {
    At(s, pid, if Expired(seen, s.clock) then FoundExpired(seen) else Over(NotReady))
  }

  function DeleteExpired(s: State, pid: nat, seen: Lease): State
    requires pid in s.processes
  {
    match s.lease
    case None => At(s, pid, FoundNone)
    case Some(l) =>
      if l.uid == seen.uid && l.version == seen.version
      then At(s.(lease := None), pid, FoundNone)
      else At(s, pid, Over(Error))
  }

  function CreateLease(rules: Rules, s: State, pid: nat): State
    requires pid in s.processes
  {
    var p := s.processes[pid];
    if rules.bounded && !InTime(p, s.clock) then At(s, pid, Over(Error))
    else if s.lease.Some? then At(s, pid, Over(NotReady))
    else
      var l := Lease(s.next, s.next, Some(p.stamp));
      s.(lease := Some(l), next := s.next + 1,
         processes := s.processes[pid := p.(stage := Leased, lease := Some(l))])
  }

  predicate Open(c: Option<Component>) {
    c.Some? && !c.value.deleting && c.value.ready
  }

  function Lookup(s: State, name: string): Option<Namespace> {
    if name in s.namespaces then Some(s.namespaces[name]) else None
  }

  /** registerConsumer under its lease: the component is read, then room is checked. */
  function CheckCall(rules: Rules, s: State, pid: nat, target: string): State
    requires pid in s.processes
  {
    var ns := Lookup(s, target);
    match s.processes[pid].stage
    case Leased =>
      if s.component.None? then At(s, pid, Over(Error))
      else if !Open(s.component) then At(s, pid, Over(NotReady))
      else if rules.max > 0 then At(s, pid, Admissible(s.component.value.uid))
      else At(s, pid, Cleared(s.component.value.uid))
    case Admissible(uid) =>
      if ns.None? then At(s, pid, Over(Error))
      else At(s, pid, if ns.value.labelled then Cleared(uid) else NotConsumer(uid))
    case NotConsumer(uid) =>
      At(s, pid, if |Consumers(s.namespaces)| >= rules.max then Over(AtCapacity) else Cleared(uid))
    case _ => s
  }

  /** registerConsumer, from labelConsumer on. */
  function JoinCall(rules: Rules, s: State, pid: nat, target: string): State
    requires pid in s.processes
  {
    var p := s.processes[pid];
    var ns := Lookup(s, target);
    match p.stage
    case Cleared(uid) =>
      if ns.None? then At(s, pid, Over(Error))
      else At(s, pid, if ns.value.labelled then Labelled(uid, ns.value.uid) else ReadNamespace(uid, ns.value))
    case ReadNamespace(uid, seen) =>
      if ns.None? || ns.value.version != seen.version || (rules.bounded && !InTime(p, s.clock))
      then At(s, pid, Over(Error))
      else
        var patched := ns.value.(labelled := true, version := s.next);
        At(s.(namespaces := s.namespaces[target := patched], next := s.next + 1),
           pid, Labelled(uid, patched.uid))
    case Labelled(uid, nsUid) =>
      if Open(s.component) && s.component.value.uid == uid
      then At(s.(confirmed := s.confirmed + {(uid, nsUid)}), pid, Confirmed(uid, nsUid))
      else At(s, pid, Over(if s.component.None? then Error else NotReady))
    case Confirmed(uid, nsUid) =>
      if InTime(p, s.clock)
      then At(s.(admitted := s.admitted + {(uid, nsUid)}), pid, Over(Admitted(uid, nsUid)))
      else At(s, pid, Over(Error))
    case _ => s
  }

  predicate Acquiring(g: Stage) {
    g.Starting? || g.SawLease? || g.FoundExpired? || g.FoundNone?
  }

  predicate Checking(g: Stage) {
    g.Leased? || g.Admissible? || g.NotConsumer?
  }

  function RegisterCall(rules: Rules, s: State, pid: nat, target: string): State
    requires pid in s.processes
  {
    if Checking(s.processes[pid].stage) then CheckCall(rules, s, pid, target) else JoinCall(rules, s, pid, target)
  }

  /** One call of consumersDrained once it holds its lease, then the uninstall it allows. */
  function DrainCall(s: State, pid: nat, uid: nat): State
    requires pid in s.processes
  {
    match s.processes[pid].stage
    case Leased =>
      var same := s.component.Some? && s.component.value.uid == uid && s.component.value.deleting;
      At(s, pid, if same then SawDeleting else Over(if s.component.None? then Error else NotReady))
    case SawDeleting =>
      if Consumers(s.namespaces) == {} && InTime(s.processes[pid], s.clock)
      then At(s.(drained := s.drained + {uid}), pid, Empty)
      else At(s, pid, Over(if InTime(s.processes[pid], s.clock) then NotReady else Error))
    case Drained => At(s.(uninstalled := s.uninstalled + {uid}), pid, Over(NotReady))
    case _ => s
  }

  function Call(rules: Rules, s: State, pid: nat): State
    requires pid in s.processes
  {
    match s.processes[pid].stage
    case Starting => ReadLease(s, pid)
    case SawLease(seen) => JudgeLease(s, pid, seen)
    case FoundExpired(seen) => DeleteExpired(s, pid, seen)
    case FoundNone => CreateLease(rules, s, pid)
    case _ =>
      match s.processes[pid].role
      case Register(target) => RegisterCall(rules, s, pid, target)
      case Drain(uid) => DrainCall(s, pid, uid)
  }

  /** releaseProvisionLease: the delete names the UID and version this process created. */
  function ReleaseCall(s: State, pid: nat): State
    requires pid in s.processes
  {
    var own := s.processes[pid].lease;
    var freed := s.lease.Some? && own.Some?
                 && s.lease.value.uid == own.value.uid && s.lease.value.version == own.value.version;
    Depart(s.(lease := if freed then None else s.lease), pid)
  }

  /** A drain goes on to the teardown without its lease, a registration is over. */
  function Depart(s: State, pid: nat): State
    requires pid in s.processes
  {
    s.(processes := if s.processes[pid].stage.Empty?
                    then s.processes[pid := s.processes[pid].(stage := Drained, lease := None)]
                    else s.processes - {pid})
  }

  /** A write lands, but its caller sees an error. */
  function LostReply(rules: Rules, s: State, pid: nat): State
    requires pid in s.processes
  {
    var p := s.processes[pid];
    if p.stage.FoundExpired? || p.stage.FoundNone? || p.stage.ReadNamespace? then
      var t := Call(rules, s, pid);
      t.(processes := s.processes[pid := p.(stage := Over(Error))])
    else At(s, pid, Over(Error))
  }

  /** What everyone else may do: users, the namespace controller, the other reconciler. */
  function Surroundings(rules: Rules, s: State, a: Action): State {
    match a
    case CreateComponent =>
      if s.component.Some? then s
      else s.(component := Some(Component(s.next, false, false)), next := s.next + 1)
    case SetReady(ready) =>
      if s.component.None? then s else s.(component := Some(s.component.value.(ready := ready)))
    case DeleteComponent =>
      if s.component.None? then s else s.(component := Some(s.component.value.(deleting := true)))
    case RemoveComponent =>
      if s.component.Some? && s.component.value.deleting then s.(component := None) else s
    case CreateNamespace(name) =>
      if name in s.namespaces then s
      else s.(namespaces := s.namespaces[name := Namespace(s.next, s.next, false)], next := s.next + 1)
    case TouchNamespace(name) =>
      if name !in s.namespaces then s
      else s.(namespaces := s.namespaces[name := s.namespaces[name].(version := s.next)], next := s.next + 1)
    case RemoveNamespace(name) => s.(namespaces := s.namespaces - {name})
    case ForeignLease =>
      if s.lease.Some? then s else s.(lease := Some(Lease(s.next, s.next, None)), next := s.next + 1)
    case RemoveLease => if rules.bounded then s else s.(lease := None)
    case _ => s
  }

  predicate Leaving(g: Stage) {
    g.Over? || g.Empty?
  }

  function Apply(rules: Rules, s: State, a: Action): State {
    match a
    case Tick(elapsed) => s.(clock := s.clock + elapsed)
    case Spawn(pid, role) =>
      if pid in s.processes then s
      else s.(processes := s.processes[pid := Process(role, s.clock, s.clock, Starting, None)])
    case Stamp(pid) =>
      if pid in s.processes && s.processes[pid].stage.Starting?
      then s.(processes := s.processes[pid := s.processes[pid].(stamp := s.clock)]) else s
    case Proceed(pid) => if pid in s.processes then Call(rules, s, pid) else s
    case Fail(pid) => if pid in s.processes then At(s, pid, Over(Error)) else s
    case LoseReply(pid) => if pid in s.processes then LostReply(rules, s, pid) else s
    case Release(pid) => if pid in s.processes && Leaving(s.processes[pid].stage) then ReleaseCall(s, pid) else s
    case LeaveLease(pid) => if pid in s.processes && Leaving(s.processes[pid].stage) then Depart(s, pid) else s
    case Crash(pid) => s.(processes := s.processes - {pid})
    case _ => Surroundings(rules, s, a)
  }

  function Execute(rules: Rules, s: State, run: seq<Action>): State
    decreases |run|
  {
    if run == [] then s else Execute(rules, Apply(rules, s, run[0]), run[1..])
  }

  const INITIAL := State(0, 0, None, map[], None, map[], {}, {}, {}, {})
}
