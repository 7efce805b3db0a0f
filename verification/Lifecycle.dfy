/**
  One environment object from its creation to its release: reconcile passes over cached reads
  of any age, checkpoints kept by status patches, and the namespaces it may own. One step is
  one call to the API server; users, other controllers and crashes act between any two.
 */
module Lifecycle {
  import opened Wrappers

  /** target is the length of the digest prefix in status.targetNamespace; ready stands for the
      Ready condition. bound, cleanup and ready are entries of one list of conditions. */
  datatype Env = Env(deleting: bool, finalizer: bool, target: Option<nat>, bound: bool, cleanup: bool, ready: string)

  datatype Namespace = Namespace(uid: nat, version: nat, managed: bool, owner: string, terminating: bool)

  predicate Owns(me: string, ns: Namespace) {
    me != "" && ns.managed && ns.owner == me
  }

  /** The prefix lengths that allocateNamespace tries. */
  predicate IsLength(n: nat) {
    8 <= n <= 52 && n % 4 == 0
  }

  /** Where a pass is: named after what it knows, or is about to do. */
  datatype Stage =
    | Begun
    | Creating
    | Taken
    | NotManaged
    | Owned
    | Removing(ns: Namespace)
    | Releasing
    | Patching(env: Env)

  /** read is the version of the environment that the pass works on. */
  datatype Pass = Pass(read: nat, stage: Stage)

  /** A pass that sets CleanupComplete: was there a template, and what came of its cleanup? */
  datatype Cleanup = Cleanup(read: nat, template: bool, undeployed: bool, deprovisioned: bool)

  /** versions holds every content of the environment, the last one is current. Namespaces are
      named by prefix length. The last four fields are history: reads of passes that did work
      (Jobs, binding secrets, consumer labels), namespaces as they were when their deletion
      committed, cleanups, and reads of passes that removed the finalizer. */
  datatype State = State(
    versions: seq<Env>,
    gone: bool,
    namespaces: map<nat, Namespace>,
    next: nat,
    pass: Option<Pass>,
    works: seq<nat>,
    deleted: seq<Namespace>,
    cleanups: seq<Cleanup>,
    releases: seq<nat>)

  datatype Action =
    | UserDelete
    | Touch
    | CreateForeign(n: nat, managed: bool, owner: string)
    | Relabel(n: nat, managed: bool, owner: string)
    | RemoveNamespace(n: nat)
    | Begin(read: nat)
    | Crash
    | GiveUp
    | AddFinalizer
    | Allocate(n: nat)
    | SetFailed(reason: string)
    | Expire
    | LookUp
    | Create
    | Bind
    | Work
    | CleanUp(template: bool, undeployed: bool, deprovisioned: bool)
    | DeleteNamespace
    | Release
    | Land

  function Current(s: State): Env
    requires s.versions != []
  {
    s.versions[|s.versions| - 1]
  }

  function Push(s: State, e: Env): State {
    s.(versions := s.versions + [e])
  }

  /** Deletion waits for the finalizer. */
  function Deletion(s: State): State
    requires s.versions != []
  {
    if s.gone then s
    else if !Current(s).finalizer then s.(gone := true)
    else Push(s, Current(s).(deleting := true))
  }

  function Surroundings(s: State, a: Action): State
    requires s.versions != []
  {
    match a
    case UserDelete => Deletion(s)
    case Touch => if s.gone then s else Push(s, Current(s))
    case CreateForeign(n, managed, owner) =>
      if n in s.namespaces then s
      else s.(namespaces := s.namespaces[n := Namespace(s.next, s.next, managed, owner, false)], next := s.next + 1)
    case Relabel(n, managed, owner) =>
      if n !in s.namespaces then s
      else s.(namespaces := s.namespaces[n := s.namespaces[n].(version := s.next, managed := managed, owner := owner)],
              next := s.next + 1)
    case RemoveNamespace(n) => s.(namespaces := s.namespaces - {n})
    case _ => s
  }

  function At(s: State, p: Pass, stage: Stage): State {
    s.(pass := Some(p.(stage := stage)))
  }

  function Lookup(s: State, n: nat): Option<Namespace> {
    if n in s.namespaces then Some(s.namespaces[n]) else None
  }

  /** createNamespace on a live namespace that is there. */
  function Judge(me: string, s: State, p: Pass, r: Env, ns: Namespace): State {
    At(s, p, if !Owns(me, ns) then NotManaged else if ns.terminating then Patching(r) else Owned)
  }

  /** The live read: of createNamespace, or of reconcileDelete. */
  function LookUpCall(me: string, s: State, p: Pass, r: Env): State
    requires r.target.Some?
  {
    var found := Lookup(s, r.target.value);
    if !r.deleting then
      match found
      case None => At(s, p, if r.bound then Patching(r) else Creating)
      case Some(ns) => Judge(me, s, p, r, ns)
    else
      match found
      case None => At(s, p, if r.cleanup then Releasing else if r.bound then NotManaged else Releasing)
      case Some(ns) =>
        At(s, p, if !Owns(me, ns) then (if r.bound then NotManaged else Releasing)
                 else if r.cleanup then Removing(ns) else Owned)
  }

  /** Create, and the second look when the name is taken. */
  function CreateCall(me: string, s: State, p: Pass, r: Env): State
    requires r.target.Some?
  {
    if p.stage.Creating? then
      if r.target.value in s.namespaces then At(s, p, Taken)
      else
        var own := Namespace(s.next, s.next, true, me, false);
        At(s.(namespaces := s.namespaces[r.target.value := own], next := s.next + 1), p, Owned)
    else if p.stage.Taken? then
      match Lookup(s, r.target.value)
      case None => At(s, p, Patching(r))
      case Some(ns) => Judge(me, s, p, r, ns)
    else s
  }

  /** The delete names the UID and the version that were read. */
  function DeleteCall(s: State, p: Pass, r: Env, ns: Namespace): State
    requires r.target.Some?
  {
    match Lookup(s, r.target.value)
    case None => At(s, p, Releasing)
    case Some(live) =>
      if live.uid != ns.uid || live.version != ns.version then At(s, p, Patching(r))
      else
        var t := s.(namespaces := s.namespaces[r.target.value := live.(terminating := true, version := s.next)],
                    next := s.next + 1, deleted := s.deleted + [live]);
        At(t, p, Releasing)
  }

  /** reconcileDelete's choice whether to clean up; an unbound environment has nothing to. */
  function CleanUpCall(s: State, p: Pass, r: Env, c: Cleanup): State {
    if c.template && r.bound && !(c.undeployed && c.deprovisioned) then At(s, p, Patching(r))
    else At(s.(cleanups := s.cleanups + [c]), p, Patching(r.(cleanup := true)))
  }

  /** The deferred status patch. A checkpoint is sent with the version that was read; anything
      else goes unlocked, as a merge patch: it leaves alone what the pass did not change, but
      replaces the list of conditions as a whole. */
  predicate Locked(r: Env, e: Env) {
    r.target != e.target || r.bound != e.bound || r.cleanup != e.cleanup
  }

  function LandCall(s: State, p: Pass, r: Env, e: Env): State
    requires s.versions != []
  {
    var t := s.(pass := None);
    if s.gone then t
    else if Locked(r, e) then (if p.read == |s.versions| - 1 then Push(t, e) else t)
    else if e.ready != r.ready then Push(t, Current(s).(bound := r.bound, cleanup := r.cleanup, ready := e.ready))
    else Push(t, Current(s))
  }

  function ReleaseCall(s: State, p: Pass): State
    requires s.versions != []
  {
    var t := s.(pass := None);
    if s.gone then t
    else Push(t, Current(s).(finalizer := false)).(gone := Current(s).deleting, releases := s.releases + [p.read])
  }

  /** What a pass that sets CleanupComplete puts on record. */
  function CleanupOf(p: Pass, a: Action): Cleanup {
    if a.CleanUp? then Cleanup(p.read, a.template, a.undeployed, a.deprovisioned)
    else Cleanup(p.read, false, false, false)
  }

  /** The steps that only decide: where the pass goes on. */
  function Decision(me: string, p: Pass, r: Env, a: Action): Stage {
    match a
    case GiveUp => Patching(r)
    case Allocate(n) =>
      if !r.deleting && r.finalizer && IsLength(n) && me != ""
         && ((p.stage.Begun? && r.target.None?)
             || (p.stage.NotManaged? && !r.bound && r.target.Some? && n >= r.target.value + 4))
      then Patching(r.(target := Some(n))) else p.stage
    case SetFailed(reason) =>
      if p.stage.Begun? || (p.stage.NotManaged? && r.bound) || (p.stage.Owned? && r.bound && !r.deleting)
      then Patching(r.(ready := reason)) else p.stage
    case Bind => if p.stage.Owned? && !r.deleting && !r.bound then Patching(r.(bound := true)) else p.stage
    case _ => p.stage
  }

  /** A step of the pass that is at work; r is the environment as it read it. */
  function PassStep(me: string, s: State, p: Pass, r: Env, a: Action): State
    requires s.versions != []
  {
    match a
    case Crash => s.(pass := None)
    case GiveUp | Allocate(_) | SetFailed(_) | Bind => At(s, p, Decision(me, p, r, a))
    case AddFinalizer =>
      if p.stage.Begun? && !r.deleting && !r.finalizer
      then (if s.gone then s.(pass := None) else Push(s.(pass := None), Current(s).(finalizer := true))) else s
    case Expire => if p.stage.Begun? && !r.deleting && r.finalizer then At(Deletion(s), p, Patching(r)) else s
    case LookUp =>
      if !p.stage.Begun? || (!r.deleting && !r.finalizer) then s
      else if r.target.Some? then LookUpCall(me, s, p, r)
      else if r.deleting then At(s, p, Releasing)
      else s
    case Create => if r.target.Some? then CreateCall(me, s, p, r) else s
    case Work => if p.stage.Owned? && !r.deleting && r.bound then s.(works := s.works + [p.read]) else s
    case CleanUp(_, _, _) =>
      if p.stage.Owned? && r.deleting && !r.cleanup then CleanUpCall(s, p, r, CleanupOf(p, a)) else s
    case DeleteNamespace => if p.stage.Removing? && r.target.Some? then DeleteCall(s, p, r, p.stage.ns) else s
    case Release => if p.stage.Releasing? then ReleaseCall(s, p) else s
    case Land => if p.stage.Patching? then LandCall(s, p, r, p.stage.env) else s
    case _ => Surroundings(s, a)
  }

  predicate Reading(s: State) {
    s.pass.Some? && s.pass.value.read < |s.versions|
  }

  function ReadBy(s: State): Env
    requires Reading(s)
  {
    s.versions[s.pass.value.read]
  }

  function Apply(me: string, s: State, a: Action): State
    requires s.versions != []
  {
    if a.Begin? then
      if s.pass.None? && a.read < |s.versions| then s.(pass := Some(Pass(a.read, Begun))) else s
    else if Reading(s) then PassStep(me, s, s.pass.value, ReadBy(s), a)
    else Surroundings(s, a)
  }

  lemma ReadsAreQuiet(me: string, s: State, p: Pass, r: Env, c: Cleanup)
    requires s.versions != []
    ensures r.target.Some? ==> LookUpCall(me, s, p, r).versions == s.versions == CreateCall(me, s, p, r).versions
    ensures r.target.Some? && p.stage.Removing? ==> DeleteCall(s, p, r, p.stage.ns).versions == s.versions
    ensures CleanUpCall(s, p, r, c).versions == s.versions
  {
    hide Owns;
  }

  lemma VersionsGrow(me: string, s: State, a: Action)
    requires s.versions != []
    ensures s.versions <= Apply(me, s, a).versions && |Apply(me, s, a).versions| <= |s.versions| + 1
  {
    hide Owns, IsLength, LookUpCall, CreateCall, DeleteCall, CleanUpCall, Decision;
    if Reading(s) {
      var p := s.pass.value;
      ReadsAreQuiet(me, s, p, ReadBy(s), CleanupOf(p, a));
    }
  }

  function Execute(me: string, s: State, run: seq<Action>): (t: State)
    requires s.versions != []
    ensures t.versions != []
    decreases |run|
  {
    if run == [] then s
    else
      VersionsGrow(me, s, run[0]);
      Execute(me, Apply(me, s, run[0]), run[1..])
  }

  lemma {:induction false} ExecuteConcat(me: string, s: State, a: seq<Action>, b: seq<Action>)
    requires s.versions != []
    ensures Execute(me, s, a + b) == Execute(me, Execute(me, s, a), b)
    decreases |a|
  {
    hide Apply;
    if a == [] {
      assert a + b == b;
    } else {
      VersionsGrow(me, s, a[0]);
      assert (a + b)[1..] == a[1..] + b;
      ExecuteConcat(me, Apply(me, s, a[0]), a[1..], b);
    }
  }

  const CREATED := Env(false, false, None, false, false, "")
  const INITIAL := State([CREATED], false, map[], 0, None, [], [], [], [])
}
