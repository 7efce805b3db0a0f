/**
  reconcile and reconcileDelete as the operator runs them, one API call after another, with
  other actors between any two. Each call is a step of Lifecycle, so what is proved of its runs
  holds of this code.
 */
module LifecycleController {
  import opened Wrappers
  import opened Turns
  import opened Lifecycle
  import opened LifecycleSafety
  import opened LifecycleTheorems
  import N = Namespaces

  /** Passes over one environment are serialized, so others only act around it. */
  predicate Foreign(run: seq<Action>) {
    forall a | a in run :: a.UserDelete? || a.Touch? || a.CreateForeign? || a.Relabel? || a.RemoveNamespace?
  }

  lemma ForeignStep(me: string, s: State, a: Action)
    requires s.versions != [] && Foreign([a])
    ensures var t := Apply(me, s, a);
      t.versions != [] && s.versions <= t.versions && t.pass == s.pass && t.cleanups == s.cleanups
  {
    assert a in [a];
    SurroundingsArePlain(s, a);
    hide Surroundings, LookUpCall, CreateCall, DeleteCall, CleanUpCall, Decision, LandCall, ReleaseCall, Deletion;
  }

  lemma {:induction false} ForeignRun(me: string, s: State, run: seq<Action>)
    requires s.versions != [] && Foreign(run)
    ensures var t := Execute(me, s, run); s.versions <= t.versions && t.pass == s.pass && t.cleanups == s.cleanups
    decreases |run|
  {
    if run != [] {
      assert run[0] in run && Foreign([run[0]]);
      ForeignStep(me, s, run[0]);
      hide Apply;
      ForeignRun(me, Apply(me, s, run[0]), run[1..]);
    }
  }

  class Server {
    const me: string
    var state: State
    ghost var log: seq<Action>

    ghost predicate Valid()
      reads this
    {
      state == Execute(me, INITIAL, log)
    }

    constructor (me: string)
      ensures Valid() && log == [] && this.me == me
    {
      this.me := me;
      state := INITIAL;
      log := [];
    }

    method Do(a: Action)
      requires Valid()
      modifies this
      ensures Valid() && log == old(log) + [a] && old(state).versions != [] && state == Apply(me, old(state), a)
      ensures old(state).versions <= state.versions
    {
      hide Apply;
      ExecuteConcat(me, INITIAL, log, [a]);
      VersionsGrow(me, state, a);
      state := Apply(me, state, a);
      log := log + [a];
    }

    method Others(run: seq<Action>)
      requires Valid() && Foreign(run)
      modifies this
      ensures Valid() && log == old(log) + run
      ensures state.pass == old(state).pass && old(state).versions <= state.versions
      ensures state.cleanups == old(state).cleanups
      ensures run == [] ==> state == old(state)
    {
      ExecuteConcat(me, INITIAL, log, run);
      ForeignRun(me, state, run);
      state := Execute(me, state, run);
      log := log + run;
    }
  }

  /** Pass `read` is at `stage`, and r is the environment as it read it. */
  ghost predicate Working(server: Server, read: nat, r: Env, stage: Stage)
    reads server
  {
    && server.Valid()
    && server.state.pass == Some(Pass(read, stage))
    && read < |server.state.versions| && server.state.versions[read] == r
  }

  ghost predicate Idle(server: Server)
    reads server
  {
    server.Valid() && server.state.pass.None?
  }

  ghost predicate Undisturbed(env: nat -> Turn<Action>) {
    forall i :: Foreign(env(i).before)
  }

  // ---- the deferred patch ------------------------------------------------------------------

  /** Sends what the pass made of the status; ok says that the server took it. */
  method PatchStatus(server: Server, read: nat, r: Env, e: Env, turn: Turn<Action>) returns (ok: bool)
    requires Working(server, read, r, Patching(e)) && Foreign(turn.before)
    modifies server
    ensures Idle(server) && old(server.log) <= server.log
    ensures server.state.cleanups == old(server.state).cleanups
    ensures ok && Locked(r, e) ==> server.state.versions != [] && Current(server.state) == e
    ensures Still(turn) ==> server.state == LandCall(old(server.state), Pass(read, Patching(e)), r, e)
    ensures Still(turn) ==>
            (ok <==> !old(server.state).gone && (Locked(r, e) ==> read == |old(server.state).versions| - 1))
  {
    hide Execute, LookUpCall, CreateCall, DeleteCall, CleanUpCall, Decision, ReleaseCall, Deletion, Surroundings;
    server.Others(turn.before);
    if turn.reply.Refused? {
      server.Do(Crash);
      return false;
    }
    var conflict := Locked(r, e) && read != |server.state.versions| - 1;
    var gone := server.state.gone;
    server.Do(Land);
    return turn.reply.Answered? && !conflict && !gone;
  }

  // ---- createNamespace ----------------------------------------------------------------------

  datatype Created = Bound | Foreigner | Failure

  function StageAfter(created: Created, r: Env): Stage {
    match created
    case Bound => Owned
    case Foreigner => NotManaged
    case Failure => Patching(r)
  }

  /** Gives up: nothing of the status is changed. */
  method Abandon(server: Server, read: nat, ghost r: Env, ghost stage: Stage)
    requires Working(server, read, r, stage)
    modifies server
    ensures Working(server, read, r, Patching(r)) && old(server.log) <= server.log
    ensures server.state == At(old(server.state), Pass(read, stage), Patching(r))
  {
    hide Execute;
    server.Do(GiveUp);
  }

  /** What createNamespace makes of a namespace that it found. */
  function Assess(me: string, ns: Namespace): Created {
    if !Owns(me, ns) then Foreigner else if ns.terminating then Failure else Bound
  }

  /** The service account and the role binding in the namespace. */
  method EnsureRoleBinding(server: Server, read: nat, ghost r: Env, turn: Turn<Action>) returns (ok: bool)
    requires Working(server, read, r, Owned) && Foreign(turn.before)
    modifies server
    ensures Working(server, read, r, if ok then Owned else Patching(r)) && old(server.log) <= server.log
    ensures Still(turn) ==> ok && server.state == old(server.state)
  {
    server.Others(turn.before);
    ok := turn.reply.Answered?;
    if !ok { Abandon(server, read, r, Owned); }
  }

  /** What createNamespace comes to when nobody else acts. */
  function Creation(me: string, s: State, r: Env): Created
    requires r.target.Some?
  {
    match Lookup(s, r.target.value)
    case None => if r.bound then Failure else Bound
    case Some(ns) => Assess(me, ns)
  }

  /** The server once a namespace that was missing is there: the environment's own. */
  function Prepared(me: string, s: State, r: Env): State
    requires r.target.Some?
  {
    if r.target.value in s.namespaces || r.bound then s
    else
      s.(namespaces := s.namespaces[r.target.value := Namespace(s.next, s.next, true, me, false)], next := s.next + 1)
  }

  method CreateNamespace(server: Server, read: nat, r: Env, env: nat -> Turn<Action>) returns (created: Created)
    requires Working(server, read, r, Begun) && Undisturbed(env)
    requires !r.deleting && r.finalizer && r.target.Some?
    modifies server
    ensures Working(server, read, r, StageAfter(created, r)) && old(server.log) <= server.log
    ensures Calm(env) ==>
              && created == Creation(server.me, old(server.state), r)
              && server.state ==
                 At(Prepared(server.me, old(server.state), r), Pass(read, Begun), StageAfter(created, r))
  {
    hide Execute, Owns;
    server.Others(env(0).before);
    if !env(0).reply.Answered? {
      Abandon(server, read, r, Begun);
      return Failure;
    }
    var ns := Lookup(server.state, r.target.value);
    server.Do(LookUp);
    if ns.Some? {
      created := Assess(server.me, ns.value);
    } else if r.bound {
      return Failure;
    } else {
      created := CreateMissing(server, read, r, env);
    }
    if created.Bound? {
      var ok := EnsureRoleBinding(server, read, r, env(3));
      if !ok { return Failure; }
    }
  }

  /** The namespace is created, unless somebody else is quicker. */
  method CreateMissing(server: Server, read: nat, r: Env, env: nat -> Turn<Action>) returns (created: Created)
    requires Working(server, read, r, Creating) && Undisturbed(env) && r.target.Some?
    modifies server
    ensures Working(server, read, r, StageAfter(created, r)) && old(server.log) <= server.log
    ensures Calm(env) && r.target.value !in old(server.state).namespaces && !r.bound ==>
              && created.Bound?
              && server.state == At(Prepared(server.me, old(server.state), r), Pass(read, Creating), Owned)
  {
    hide Execute, LookUpCall, DeleteCall, CleanUpCall, Decision, ReleaseCall, Deletion, Surroundings, LandCall;
    server.Others(env(1).before);
    if env(1).reply.Refused? {
      Abandon(server, read, r, Creating);
      return Failure;
    }
    var taken := r.target.value in server.state.namespaces;
    server.Do(Create);
    if env(1).reply.Lost? {
      Abandon(server, read, r, if taken then Taken else Owned);
      return Failure;
    }
    if !taken { return Bound; }
    created := LookAgain(server, read, r, env(2));
  }

  /** Somebody else was quicker: the namespace there is looked at once more. */
  method LookAgain(server: Server, read: nat, r: Env, turn: Turn<Action>) returns (created: Created)
    requires Working(server, read, r, Taken) && Foreign(turn.before) && r.target.Some?
    modifies server
    ensures Working(server, read, r, StageAfter(created, r)) && old(server.log) <= server.log
    ensures Still(turn) ==>
              created == (var ns := Lookup(old(server.state), r.target.value);
                          if ns.None? then Failure else Assess(server.me, ns.value))
  {
    hide Execute, LookUpCall, DeleteCall, CleanUpCall, Decision, ReleaseCall, Deletion, Surroundings, LandCall;
    server.Others(turn.before);
    if !turn.reply.Answered? {
      Abandon(server, read, r, Taken);
      return Failure;
    }
    var ns := Lookup(server.state, r.target.value);
    server.Do(Create);
    if ns.None? { return Failure; }
    return Assess(server.me, ns.value);
  }

  // ---- reconcile ------------------------------------------------------------------------------

  lemma LandIgnoresStage(s: State, p: Pass, q: Pass, g: Stage, r: Env, e: Env)
    requires s.versions != [] && p.read == q.read
    ensures LandCall(At(s, p, g), p.(stage := g), r, e) == LandCall(s, q, r, e)
  {
  }

  /** setFailed, then the deferred patch. */
  method Fail(server: Server, read: nat, r: Env, ghost stage: Stage, reason: string, turn: Turn<Action>)
    requires Working(server, read, r, stage) && Foreign(turn.before)
    requires stage.Begun? || (stage.NotManaged? && r.bound) || (stage.Owned? && r.bound && !r.deleting)
    modifies server
    ensures Idle(server) && old(server.log) <= server.log
    ensures Still(turn) ==> server.state == LandCall(old(server.state), Pass(read, stage), r, r.(ready := reason))
  {
    hide Execute, LookUpCall, CreateCall, DeleteCall, CleanUpCall, ReleaseCall, Deletion, Surroundings, LandCall;
    server.Do(SetFailed(reason));
    LandIgnoresStage(old(server.state), Pass(read, stage), Pass(read, stage), Patching(r.(ready := reason)), r,
                     r.(ready := reason));
    var _ := PatchStatus(server, read, r, r.(ready := reason), turn);
  }

  method Quit(server: Server, read: nat, r: Env, ghost stage: Stage, turn: Turn<Action>)
    requires Working(server, read, r, stage) && Foreign(turn.before)
    modifies server
    ensures Idle(server) && old(server.log) <= server.log
    ensures server.state.cleanups == old(server.state).cleanups
    ensures Still(turn) ==> server.state == LandCall(old(server.state), Pass(read, stage), r, r)
  {
    hide Execute, LandCall;
    LandIgnoresStage(server.state, Pass(read, stage), Pass(read, stage), Patching(r), r, r);
    Abandon(server, read, r, stage);
    var _ := PatchStatus(server, read, r, r, turn);
  }

  /** The environment with the target that the search finds, if any. */
  function Placed(me: string, r: Env, start: nat, probe: nat -> N.Probe): Env {
    var n := N.Allocation(me, start, probe);
    if n.Ok? then r.(target := Some(n.value)) else r
  }

  /** A target is allocated, the next longer one when there is one already. */
  method Place(server: Server, read: nat, r: Env, ghost stage: Stage, start: nat, probe: nat -> N.Probe,
          turn: Turn<Action>)
    requires Working(server, read, r, stage) && Foreign(turn.before) && !r.deleting && r.finalizer
    requires (stage.Begun? && r.target.None? && start == 8)
             || (stage.NotManaged? && !r.bound && r.target.Some? && IsLength(r.target.value)
                 && start == r.target.value + 4)
    modifies server
    ensures Idle(server) && old(server.log) <= server.log
    ensures Still(turn) ==>
              server.state == LandCall(old(server.state), Pass(read, stage), r, Placed(server.me, r, start, probe))
  {
    hide Execute, LookUpCall, CreateCall, DeleteCall, CleanUpCall, ReleaseCall, Deletion, Surroundings;
    N.AllocationIsFirst(server.me, start, probe);
    var n := N.AllocateNamespace(server.me, start, probe);
    if n.Err? {
      Quit(server, read, r, stage, turn);
      return;
    }
    server.Do(Allocate(n.value));
    var _ := PatchStatus(server, read, r, r.(target := Some(n.value)), turn);
  }

  /** What comes between the target and the namespace: an API error, a reason to fail, the
      deadline, or nothing. */
  datatype Gate = Halted | Broken(reason: string) | Expired | Open

  /** What a pass that is past the gate makes of the environment when nobody else acts. */
  function Entered(me: string, s: State, r: Env, probe: nat -> N.Probe, failure: Option<string>): Env
    requires r.target.Some?
  {
    match Creation(me, s, r)
    case Foreigner => if r.bound then r.(ready := "NamespaceNotManaged") else Placed(me, r, r.target.value + 4, probe)
    case Failure => r
    case Bound => if !r.bound then r.(bound := true) else if failure.Some? then r.(ready := failure.value) else r
  }

  /** And what any pass does. */
  function Sent(me: string, s: State, r: Env, probe: nat -> N.Probe, gate: Gate, failure: Option<string>): Env {
    if r.target.None? then Placed(me, r, 8, probe)
    else if !IsLength(r.target.value) then r.(ready := "InvalidConfiguration")
    else match gate
      case Halted => r
      case Broken(reason) => r.(ready := reason)
      case Expired => r
      case Open => Entered(me, s, r, probe, failure)
  }

  /** Does it get to the gate, and past it? */
  predicate Reaches(r: Env, gate: Gate, past: Gate) {
    r.target.Some? && IsLength(r.target.value) && gate == past
  }

  /** Does it do work? */
  predicate Works(me: string, s: State, r: Env, gate: Gate) {
    Reaches(r, gate, Open) && r.bound && Creation(me, s, r).Bound?
  }

  /** The server that the deferred patch of a pass meets when nobody else acts: with the deletion of an
      expired environment, or with the namespace and the work that the pass did. */
  function Reached(me: string, s: State, read: nat, r: Env, gate: Gate): State
    requires s.versions != []
  {
    if Reaches(r, gate, Expired) then Deletion(s)
    else if Reaches(r, gate, Open) then
      Prepared(me, s, r).(works := s.works + if Works(me, s, r, gate) then [read] else [])
    else s
  }

  /** failure is what the work of a bound environment ends in, if it fails. */
  method Reconcile(server: Server, read: nat, r: Env, env: nat -> Turn<Action>, probe: nat -> N.Probe, gate: Gate,
        failure: Option<string>)
    requires Working(server, read, r, Begun) && Undisturbed(env) && !r.deleting && r.finalizer
    modifies server
    ensures Idle(server) && old(server.log) <= server.log
    ensures var was := old(server.state);
      Calm(env) ==>
        && was.versions != [] && Reached(server.me, was, read, r, gate).versions != []
        && server.state ==
           LandCall(Reached(server.me, was, read, r, gate), Pass(read, Begun), r,
                    Sent(server.me, was, r, probe, gate, failure))
  {
    hide Execute, Creation, Deletion, Placed, Entered;
    if r.target.None? {
      Place(server, read, r, Begun, 8, probe, env(9));
      return;
    }
    if !IsLength(r.target.value) {
      Fail(server, read, r, Begun, "InvalidConfiguration", env(9));
      return;
    }
    match gate {
      case Halted => Quit(server, read, r, Begun, env(9));
      case Broken(reason) => Fail(server, read, r, Begun, reason, env(9));
      case Expired => ExpireEnvironment(server, read, r, env);
      case Open => EnterNamespace(server, read, r, env, probe, failure);
    }
  }

  /** The patch looks at the read of the pass, not at where it is; and the work is done by then. */
  lemma LandsFrom(s: State, read: nat, r: Env, e: Env, g: Stage, works: seq<nat>)
    requires s.versions != []
    ensures var t := At(s, Pass(read, Begun), g);
      && LandCall(t, Pass(read, g), r, e) == LandCall(s, Pass(read, Begun), r, e)
      && LandCall(t.(works := works), Pass(read, g), r, e) == LandCall(s.(works := works), Pass(read, Begun), r, e)
  {
    hide Locked;
  }

  lemma PreparedKeeps(me: string, s: State, r: Env)
    requires r.target.Some?
    ensures Prepared(me, s, r).versions == s.versions && Prepared(me, s, r).works == s.works
    ensures Prepared(me, s, r).(works := s.works) == Prepared(me, s, r)
  {
  }

  method EnterNamespace(server: Server, read: nat, r: Env, env: nat -> Turn<Action>, probe: nat -> N.Probe,
          failure: Option<string>)
    requires Working(server, read, r, Begun) && Undisturbed(env) && !r.deleting && r.finalizer
    requires r.target.Some? && IsLength(r.target.value)
    modifies server
    ensures Idle(server) && old(server.log) <= server.log
    ensures var was := old(server.state);
      Calm(env) ==>
        && was.versions != [] && Reached(server.me, was, read, r, Open).versions != []
        && server.state ==
           LandCall(Reached(server.me, was, read, r, Open), Pass(read, Begun), r,
                    Entered(server.me, was, r, probe, failure))
  {
    hide Execute, Creation, Deletion, Placed, LookUpCall, CreateCall, DeleteCall, CleanUpCall, ReleaseCall;
    hide Surroundings, Decision;
    hide PassStep, Apply, LandCall, Prepared;
    ghost var was := server.state;
    ghost var e := Entered(server.me, was, r, probe, failure);
    PreparedKeeps(server.me, was, r);
    assert was.works + [] == was.works;
    var created := CreateNamespace(server, read, r, env);
    if Calm(env) {
      LandsFrom(Prepared(server.me, was, r), read, r, e, StageAfter(created, r),
                was.works + if r.bound && created.Bound? then [read] else []);
    }
    match created {
      case Foreigner =>
        if r.bound {
          Fail(server, read, r, NotManaged, "NamespaceNotManaged", env(9));
        } else {
          Place(server, read, r, NotManaged, r.target.value + 4, probe, env(9));
        }
      case Failure => var _ := PatchStatus(server, read, r, r, env(9));
      case Bound => UseNamespace(server, read, r, env(9), failure);
    }
  }

  method ExpireEnvironment(server: Server, read: nat, r: Env, env: nat -> Turn<Action>)
    requires Working(server, read, r, Begun) && Undisturbed(env) && !r.deleting && r.finalizer
    modifies server
    ensures Idle(server) && old(server.log) <= server.log
    ensures Calm(env) ==> old(server.state).versions != [] && Deletion(old(server.state)).versions != []
                          && server.state == LandCall(Deletion(old(server.state)), Pass(read, Begun), r, r)
                          && server.state.works == old(server.state).works
  {
    hide Execute, LookUpCall, CreateCall, DeleteCall, CleanUpCall, ReleaseCall, Surroundings, Decision;
    server.Others(env(0).before);
    if env(0).reply.Refused? {
      Quit(server, read, r, Begun, env(9));
      return;
    }
    server.Do(Expire);
    var _ := PatchStatus(server, read, r, r, env(9));
  }

  /** Binds first; only a pass that read the binding does work. */
  method UseNamespace(server: Server, read: nat, r: Env, turn: Turn<Action>, failure: Option<string>)
    requires Working(server, read, r, Owned) && Foreign(turn.before) && !r.deleting
    modifies server
    ensures Idle(server) && old(server.log) <= server.log
    ensures Still(turn) ==>
              server.state ==
              LandCall(old(server.state).(works := old(server.state).works + if r.bound then [read] else []),
                       Pass(read, Owned), r,
                       if !r.bound then r.(bound := true) else if failure.Some? then r.(ready := failure.value) else r)
  {
    hide Execute, LookUpCall, CreateCall, DeleteCall, CleanUpCall, ReleaseCall, Deletion, Surroundings;
    if !r.bound {
      server.Do(Bind);
      var _ := PatchStatus(server, read, r, r.(bound := true), turn);
      return;
    }
    server.Do(Work);
    if failure.Some? {
      Fail(server, read, r, Owned, failure.value, turn);
    } else {
      Quit(server, read, r, Owned, turn);
    }
  }

  // ---- reconcileDelete --------------------------------------------------------------------------

  method RemoveFinalizer(server: Server, read: nat, ghost r: Env, turn: Turn<Action>) returns (released: bool)
    requires Working(server, read, r, Releasing) && Foreign(turn.before)
    modifies server
    ensures Idle(server) && old(server.log) <= server.log
    ensures released ==> read in server.state.releases
    ensures Still(turn) ==>
              server.state == ReleaseCall(old(server.state), Pass(read, Releasing))
                  && (released <==> !old(server.state).gone)
  {
    hide Execute, LookUpCall, CreateCall, DeleteCall, CleanUpCall, Deletion, Surroundings, LandCall, Decision;
    server.Others(turn.before);
    if turn.reply.Refused? {
      server.Do(Crash);
      return false;
    }
    var gone := server.state.gone;
    server.Do(Release);
    return turn.reply.Answered? && !gone;
  }

  datatype Cleaning = AllDone | InProgress | Failing

  datatype TemplateAnswer = Found | Missing | Unreadable

  lemma ReleaseIgnoresStage(s: State, p: Pass, q: Pass, g: Stage)
    requires s.versions != [] && p.read == q.read
    ensures ReleaseCall(At(s, p, g), p.(stage := g)) == ReleaseCall(s, q)
  {
  }

  /** What a pass over an environment that is being deleted comes to when nobody else acts. */
  datatype Fate = Releases | Fails(reason: string) | Removes(ns: Namespace) | Cleans | Waits

  function FateOf(me: string, s: State, r: Env, template: TemplateAnswer, undeploy: Cleaning,
          deprovision: Cleaning): Fate {
    if r.target.None? then Releases
    else if !IsLength(r.target.value) then Fails("InvalidConfiguration")
    else
      var ns := Lookup(s, r.target.value);
      if ns.None? && r.cleanup then Releases
      else if ns.None? || !Owns(me, ns.value) then (if r.bound then Fails("NamespaceNotManaged") else Releases)
      else if r.cleanup then Removes(ns.value)
      else CleaningFate(r, template, undeploy, deprovision)
  }

  function CleaningFate(r: Env, template: TemplateAnswer, undeploy: Cleaning, deprovision: Cleaning): Fate {
    var unfinished := template.Found? && r.bound && !(undeploy.AllDone? && deprovision.AllDone?);
    if template.Unreadable? || unfinished then Waits else Cleans
  }

  /** The server after such a pass: `was` is the server before it. */
  ghost predicate Meets(fate: Fate, was: State, now: State, read: nat, r: Env, c: Cleanup, released: bool)
    requires was.versions != []
  {
    var p := Pass(read, Begun);
    match fate
    case Releases => now == ReleaseCall(was, p) && (released <==> !was.gone)
    case Removes(ns) =>
      && now.deleted == was.deleted + [ns] && now.versions == ReleaseCall(was, p).versions
      && now.releases == ReleaseCall(was, p).releases && now.gone == ReleaseCall(was, p).gone
      && (released <==> !was.gone)
    case Fails(reason) => now == LandCall(was, p, r, r.(ready := reason)) && !released
    case Cleans => now == LandCall(was.(cleanups := was.cleanups + [c]), p, r, r.(cleanup := true)) && !released
    case Waits => now == LandCall(was, p, r, r) && !released
  }

  lemma MeetsIgnoresStage(fate: Fate, was: State, p: Pass, g: Stage, now: State, read: nat, r: Env, c: Cleanup,
          released: bool)
    requires was.versions != [] && Meets(fate, At(was, p, g), now, read, r, c, released)
    ensures Meets(fate, was, now, read, r, c, released)
  {
  }

  /** A guarded deletion: of the namespace that was read, or a conflict. */
  lemma DeleteMeans(s: State, p: Pass, r: Env, ns: Namespace)
    requires r.target.Some?
    ensures var t := DeleteCall(s, p, r, ns);
      var live := Lookup(s, r.target.value);
      var conflict := live.Some? && (live.value.uid != ns.uid || live.value.version != ns.version);
      && t.versions == s.versions && t.gone == s.gone && t.releases == s.releases
      && t.pass == Some(p.(stage := if conflict then Patching(r) else Releasing))
      && t.deleted == s.deleted + (if live.Some? && !conflict then [live.value] else [])
  {
  }

  /** Where the live read of a deletion leads. */
  function Looked(me: string, r: Env, ns: Option<Namespace>): Stage {
    if ns.None? && r.cleanup then Releasing
    else if ns.None? || !Owns(me, ns.value) then (if r.bound then NotManaged else Releasing)
    else if r.cleanup then Removing(ns.value)
    else Owned
  }

  lemma LookUpLooks(me: string, s: State, p: Pass, r: Env)
    requires s.pass == Some(p) && Reading(s) && ReadBy(s) == r && r.deleting && p.stage.Begun?
    ensures Apply(me, s, LookUp) ==
            At(s, p, if r.target.None? then Releasing else Looked(me, r, Lookup(s, r.target.value)))
  {
    hide Owns;
  }

  /** What a deletion does about the namespace that it found, or did not find. */
  method Resolve(server: Server, read: nat, r: Env, ns: Option<Namespace>, env: nat -> Turn<Action>,
                 template: TemplateAnswer, undeploy: Cleaning, deprovision: Cleaning)
    returns (released: bool)
    requires Working(server, read, r, Looked(server.me, r, ns)) && Undisturbed(env)
    requires r.deleting && r.target.Some? && IsLength(r.target.value)
    modifies server
    ensures Idle(server) && old(server.log) <= server.log
    ensures released ==> read in server.state.releases
    ensures Calm(env) && ns == Lookup(old(server.state), r.target.value) ==>
              old(server.state).versions != []
              && Meets(FateOf(server.me, old(server.state), r, template, undeploy, deprovision), old(server.state),
                       server.state, read, r,
                       Cleanup(read, template.Found?, undeploy.AllDone?, deprovision.AllDone?), released)
  {
    hide Execute, CreateCall, DeleteCall, CleanUpCall, ReleaseCall, Deletion, Surroundings, LandCall, Decision, Owns;
    hide CleaningFate, LookUpCall, PassStep, Apply, Meets, Lookup;
    released := false;
    ghost var was := server.state;
    ghost var c := Cleanup(read, template.Found?, undeploy.AllDone?, deprovision.AllDone?);
    assert was.versions != [];
    ReleaseIgnoresStage(was, Pass(read, Begun), Pass(read, Begun), Releasing);
    LandIgnoresStage(was, Pass(read, Begun), Pass(read, Begun), NotManaged, r, r.(ready := "NamespaceNotManaged"));
    if ns.None? && r.cleanup {
      released := RemoveFinalizer(server, read, r, env(8));
      if Calm(env) { ReleasesMeets(was, server.state, read, r, c, released); }
    } else if ns.None? || !Owns(server.me, ns.value) {
      if r.bound {
        Fail(server, read, r, NotManaged, "NamespaceNotManaged", env(9));
        if Calm(env) { FailsMeets(was, server.state, read, r, "NamespaceNotManaged", c); }
      } else {
        released := RemoveFinalizer(server, read, r, env(8));
        if Calm(env) { ReleasesMeets(was, server.state, read, r, c, released); }
      }
    } else if r.cleanup {
      released := RemoveNamespaceToo(server, read, r, ns.value, env);
      if Calm(env) && ns == Lookup(was, r.target.value) {
        MeetsIgnoresCleanup(ns.value, was, server.state, read, r, Cleanup(read, false, false, false), c, released);
      }
    } else {
      CleanUpFirst(server, read, r, env, template, undeploy, deprovision);
    }
  }

  lemma ReleasesMeets(was: State, now: State, read: nat, r: Env, c: Cleanup, released: bool)
    requires was.versions != [] && now == ReleaseCall(was, Pass(read, Begun)) && (released <==> !was.gone)
    ensures Meets(Releases, was, now, read, r, c, released)
  {
  }

  lemma FailsMeets(was: State, now: State, read: nat, r: Env, reason: string, c: Cleanup)
    requires was.versions != [] && now == LandCall(was, Pass(read, Begun), r, r.(ready := reason))
    ensures Meets(Fails(reason), was, now, read, r, c, false)
  {
  }

  lemma MeetsIgnoresCleanup(ns: Namespace, was: State, now: State, read: nat, r: Env, c: Cleanup, d: Cleanup,
          released: bool)
    requires was.versions != [] && Meets(Removes(ns), was, now, read, r, c, released)
    ensures Meets(Removes(ns), was, now, read, r, d, released)
  {
  }

  method ReconcileDelete(server: Server, read: nat, r: Env, env: nat -> Turn<Action>,
                         template: TemplateAnswer, undeploy: Cleaning, deprovision: Cleaning)
    returns (released: bool)
    requires Working(server, read, r, Begun) && Undisturbed(env) && r.deleting
    modifies server
    ensures Idle(server) && old(server.log) <= server.log
    ensures released ==> read in server.state.releases
    ensures Calm(env) ==>
              old(server.state).versions != []
              && Meets(FateOf(server.me, old(server.state), r, template, undeploy, deprovision), old(server.state),
                       server.state, read, r,
                       Cleanup(read, template.Found?, undeploy.AllDone?, deprovision.AllDone?), released)
  {
    hide Execute, ReleaseCall, LandCall, Owns, CleaningFate, Looked, PassStep, Apply, Lookup;
    released := false;
    ghost var was, p := server.state, Pass(read, Begun);
    if r.target.None? {
      LookUpLooks(server.me, server.state, p, r);
      server.Do(LookUp);
      ReleaseIgnoresStage(was, p, p, Releasing);
      released := RemoveFinalizer(server, read, r, env(8));
      return;
    }
    if !IsLength(r.target.value) {
      Fail(server, read, r, Begun, "InvalidConfiguration", env(9));
      return;
    }
    hide Meets, FateOf;
    released := LookAndResolve(server, read, r, env, template, undeploy, deprovision);
  }

  /** The live read, when it is answered. */
  method LookAndResolve(server: Server, read: nat, r: Env, env: nat -> Turn<Action>,
                        template: TemplateAnswer, undeploy: Cleaning, deprovision: Cleaning)
    returns (released: bool)
    requires Working(server, read, r, Begun) && Undisturbed(env)
    requires r.deleting && r.target.Some? && IsLength(r.target.value)
    modifies server
    ensures Idle(server) && old(server.log) <= server.log
    ensures released ==> read in server.state.releases
    ensures Calm(env) ==>
              old(server.state).versions != []
              && Meets(FateOf(server.me, old(server.state), r, template, undeploy, deprovision), old(server.state),
                       server.state, read, r,
                       Cleanup(read, template.Found?, undeploy.AllDone?, deprovision.AllDone?), released)
  {
    hide Execute, ReleaseCall, LandCall, Owns, CleaningFate, Looked, PassStep, Apply, Meets, FateOf;
    released := false;
    ghost var was, p := server.state, Pass(read, Begun);
    server.Others(env(0).before);
    if !env(0).reply.Answered? {
      Quit(server, read, r, Begun, env(9));
      return;
    }
    var ns := Lookup(server.state, r.target.value);
    LookUpLooks(server.me, server.state, p, r);
    server.Do(LookUp);
    released := Resolve(server, read, r, ns, env, template, undeploy, deprovision);
    if Calm(env) {
      var fate := FateOf(server.me, was, r, template, undeploy, deprovision);
      FateIgnoresStage(server.me, was, p, Looked(server.me, r, ns), r, template, undeploy, deprovision);
      MeetsIgnoresStage(fate, was, p, Looked(server.me, r, ns), server.state, read, r,
                        Cleanup(read, template.Found?, undeploy.AllDone?, deprovision.AllDone?), released);
    }
  }

  lemma FateIgnoresStage(me: string, s: State, p: Pass, g: Stage, r: Env, template: TemplateAnswer, undeploy: Cleaning,
        deprovision: Cleaning)
    ensures FateOf(me, At(s, p, g), r, template, undeploy, deprovision) ==
            FateOf(me, s, r, template, undeploy, deprovision)
  {
    hide Owns, CleaningFate;
  }

  /** The guarded delete: true when the namespace is being deleted now, or was gone. */
  method DeleteOwn(server: Server, read: nat, r: Env, ns: Namespace, turn: Turn<Action>) returns (done: bool)
    requires Working(server, read, r, Removing(ns)) && Foreign(turn.before) && r.target.Some?
    modifies server
    ensures Working(server, read, r, if done then Releasing else Patching(r)) && old(server.log) <= server.log
    ensures Still(turn) ==> server.state == DeleteCall(old(server.state), Pass(read, Removing(ns)), r, ns)
  {
    hide Execute, LookUpCall, CreateCall, DeleteCall, CleanUpCall, ReleaseCall, Deletion, Surroundings, LandCall;
    hide Decision;
    server.Others(turn.before);
    if turn.reply.Refused? {
      Abandon(server, read, r, Removing(ns));
      return false;
    }
    var live := Lookup(server.state, r.target.value);
    var conflict := live.Some? && (live.value.uid != ns.uid || live.value.version != ns.version);
    DeleteMeans(server.state, Pass(read, Removing(ns)), r, ns);
    server.Do(DeleteNamespace);
    if conflict { return false; }
    if turn.reply.Lost? {
      Abandon(server, read, r, Releasing);
      return false;
    }
    return true;
  }

  method RemoveNamespaceToo(server: Server, read: nat, r: Env, ns: Namespace, env: nat -> Turn<Action>)
    returns (released: bool)
    requires Working(server, read, r, Removing(ns)) && Undisturbed(env) && r.target.Some?
    modifies server
    ensures Idle(server) && old(server.log) <= server.log
    ensures released ==> read in server.state.releases
    ensures Calm(env) && Lookup(old(server.state), r.target.value) == Some(ns) ==>
              old(server.state).versions != []
              && Meets(Removes(ns), old(server.state), server.state, read, r, Cleanup(read, false, false, false),
                       released)
  {
    hide Execute, LookUpCall, CreateCall, DeleteCall, CleanUpCall, Deletion, Surroundings, LandCall, Decision, Owns;
    DeleteMeans(server.state, Pass(read, Removing(ns)), r, ns);
    var done := DeleteOwn(server, read, r, ns, env(1));
    if done {
      released := RemoveFinalizer(server, read, r, env(8));
    } else {
      var _ := PatchStatus(server, read, r, r, env(9));
      released := false;
    }
  }

  method CleanUpFirst(server: Server, read: nat, r: Env, env: nat -> Turn<Action>,
                      template: TemplateAnswer, undeploy: Cleaning, deprovision: Cleaning)
    requires Working(server, read, r, Owned) && Undisturbed(env) && r.deleting && !r.cleanup
    modifies server
    ensures Idle(server) && old(server.log) <= server.log
    ensures server.state.cleanups == old(server.state).cleanups +
              if CleaningFate(r, template, undeploy, deprovision).Cleans?
              then [Cleanup(read, template.Found?, undeploy.AllDone?, deprovision.AllDone?)] else []
    ensures Calm(env) ==>
              old(server.state).versions != []
              && Meets(CleaningFate(r, template, undeploy, deprovision), old(server.state), server.state, read, r,
                       Cleanup(read, template.Found?, undeploy.AllDone?, deprovision.AllDone?), false)
  {
    hide Execute, LookUpCall, CreateCall, DeleteCall, ReleaseCall, Deletion, Surroundings, Decision, Owns;
    if template.Unreadable? {
      Quit(server, read, r, Owned, env(9));
      return;
    }
    if template.Found? && r.bound {
      if !undeploy.AllDone? || !deprovision.AllDone? {
        Quit(server, read, r, Owned, env(9));
        return;
      }
    }
    server.Do(CleanUp(template.Found?, undeploy.AllDone?, deprovision.AllDone?));
    var _ := PatchStatus(server, read, r, r.(cleanup := true), env(9));
  }

  // ---- one pass -----------------------------------------------------------------------------------

  /** What the controllers' answers are made of. */
  datatype Inputs = Inputs(
    probe: nat -> N.Probe,
    gate: Gate,
    failure: Option<string>,
    template: TemplateAnswer,
    undeploy: Cleaning,
    deprovision: Cleaning)

  /** Once the finalizer is there. */
  function Finalized(s: State): State
    requires s.versions != []
  {
    var t := s.(pass := None);
    if s.gone then t else Push(t, Current(s).(finalizer := true))
  }

  /** The pass over `read` as it begins. */
  function Start(s: State, read: nat): State {
    s.(pass := Some(Pass(read, Begun)))
  }

  /** A whole pass from `was` to `now` in which nobody else acts. */
  ghost predicate Passes(me: string, was: State, now: State, read: nat, inputs: Inputs)
    requires read < |was.versions|
  {
    var r, begun := was.versions[read], Start(was, read);
    if r.deleting then
      exists released ::
        Meets(FateOf(me, begun, r, inputs.template, inputs.undeploy, inputs.deprovision), begun, now, read, r,
              Cleanup(read, inputs.template.Found?, inputs.undeploy.AllDone?, inputs.deprovision.AllDone?), released)
    else if !r.finalizer then now == Finalized(begun)
    else
      var reached := Reached(me, begun, read, r, inputs.gate);
      && reached.versions != []
      && now == LandCall(reached, Pass(read, Begun), r, Sent(me, begun, r, inputs.probe, inputs.gate, inputs.failure))
  }

  method AddTheFinalizer(server: Server, read: nat, ghost r: Env, turn: Turn<Action>)
    requires Working(server, read, r, Begun) && Foreign(turn.before) && !r.deleting && !r.finalizer
    modifies server
    ensures Idle(server) && old(server.log) <= server.log
    ensures Still(turn) ==>
              && old(server.state).versions != []
              && server.state == Finalized(old(server.state))
  {
    hide Execute, LookUpCall, CreateCall, DeleteCall, CleanUpCall, Deletion, Surroundings, LandCall, Decision;
    server.Others(turn.before);
    server.Do(if turn.reply.Refused? then Crash else AddFinalizer);
  }

  /** Reconcile over a cached read of any age. Whatever the answers, only bound environments are
      worked for, only own namespaces deleted, and none released before its cleanup. */
  method ReconcileRead(server: Server, read: nat, env: nat -> Turn<Action>, inputs: Inputs)
    requires Idle(server) && Undisturbed(env) && read < |server.state.versions|
    modifies server
    ensures Idle(server) && old(server.log) <= server.log
    ensures forall v | v in server.state.works :: WorkSound(server.state.versions, v)
    ensures forall ns | ns in server.state.deleted :: Owns(server.me, ns)
    ensures forall v | v in server.state.releases :: ReleaseSound(server.state.versions, v)
    ensures forall c | c in server.state.cleanups :: CleanupSound(server.state.versions, c)
    ensures Calm(env) ==> Passes(server.me, old(server.state), server.state, read, inputs)
  {
    hide Execute, WorkSound, CleanupSound, ReleaseSound, Meets, FateOf, Reached, Sent, LandCall, Finalized;
    var r := server.state.versions[read];
    server.Do(Begin(read));
    assert server.state == Start(old(server.state), read);
    if r.deleting {
      var released := ReconcileDelete(server, read, r, env, inputs.template, inputs.undeploy, inputs.deprovision);
    } else if !r.finalizer {
      AddTheFinalizer(server, read, r, env(0));
    } else {
      Reconcile(server, read, r, env, inputs.probe, inputs.gate, inputs.failure);
    }
    RecordsAreSound(server.me, server.log);
  }

  lemma RecordsAreSound(me: string, log: seq<Action>)
    ensures Recorded(me, Execute(me, INITIAL, log))
  {
    StartIsSound(me);
    RunKeepsInv(me, INITIAL, log);
  }
}
