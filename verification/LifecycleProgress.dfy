/**
  What a pass over an environment comes to when nobody else acts, outcome by outcome; and that such
  passes bring an environment to its work, and a deleted one to its end.
 */
module LifecycleProgress {
  import opened Wrappers
  import opened Turns
  import opened Lifecycle
  import opened LifecycleController
  import N = Namespaces

  /** The target names a namespace that may be used. */
  predicate Aimed(r: Env) {
    r.target.Some? && IsLength(r.target.value)
  }

  predicate Absent(s: State, r: Env) {
    r.target.Some? && r.target.value !in s.namespaces
  }

  /** The namespace is the environment's own. */
  predicate Mine(me: string, s: State, r: Env) {
    r.target.Some? && r.target.value in s.namespaces && Owns(me, s.namespaces[r.target.value])
  }

  // ---- a deletion -----------------------------------------------------------------------------------

  /** Nothing is left to clean up: there is no template, or nothing was ever done, or both cleanups
      finished. */
  predicate CleanedUp(r: Env, template: TemplateAnswer, undeploy: Cleaning, deprovision: Cleaning) {
    || template.Missing?
    || (template.Found? && !r.bound)
    || (template.Found? && undeploy.AllDone? && deprovision.AllDone?)
  }

  /** A bound environment that has lost its namespace: only an admin can help. */
  predicate Stuck(me: string, s: State, r: Env) {
    r.target.Some? && (!IsLength(r.target.value) || (r.bound && !Mine(me, s, r) && !(Absent(s, r) && r.cleanup)))
  }

  /** When each outcome of a deletion comes. */
  lemma OutcomesOfDeletion(me: string, s: State, r: Env, template: TemplateAnswer, undeploy: Cleaning,
          deprovision: Cleaning)
    ensures var fate := FateOf(me, s, r, template, undeploy, deprovision);
      && (fate.Fails? <==> Stuck(me, s, r))
      && (fate.Releases? <==> r.target.None? || (Aimed(r) && !Mine(me, s, r) && !Stuck(me, s, r)))
      && (fate.Removes? <==> Aimed(r) && Mine(me, s, r) && r.cleanup)
      && (fate.Removes? ==> fate.ns == s.namespaces[r.target.value])
      && (fate.Cleans? <==>
            Aimed(r) && Mine(me, s, r) && !r.cleanup && CleanedUp(r, template, undeploy, deprovision))
      && (fate.Waits? <==>
            Aimed(r) && Mine(me, s, r) && !r.cleanup && !CleanedUp(r, template, undeploy, deprovision))
  {
    hide Owns, IsLength;
  }

  /** A missing template holds no cleanup back, whatever came of the Jobs. */
  lemma MissingTemplateCleans(me: string, s: State, r: Env, undeploy: Cleaning, deprovision: Cleaning)
    requires Aimed(r) && Mine(me, s, r) && !r.cleanup
    ensures FateOf(me, s, r, Missing, undeploy, deprovision) == Cleans
    ensures CleaningFate(r, Missing, undeploy, deprovision) == Cleans
  {
    OutcomesOfDeletion(me, s, r, Missing, undeploy, deprovision);
    hide Owns, IsLength;
  }

  /** The environment as it is now. */
  function Last(s: State): Env {
    if s.versions == [] then CREATED else Current(s)
  }

  /** A pass over the environment as it is now. */
  ghost predicate FreshPass(me: string, was: State, now: State, inputs: Inputs) {
    was.versions != [] && !was.gone && Passes(me, was, now, |was.versions| - 1, inputs)
  }

  /** What the patch of a fresh pass leaves: the environment as the pass made it. */
  lemma FreshPatch(was: State, read: nat, r: Env, e: Env)
    requires !was.gone && was.versions != [] && read == |was.versions| - 1 && r == Last(was)
    requires e.deleting == r.deleting && e.finalizer == r.finalizer
    ensures var now := LandCall(was, Pass(read, Begun), r, e);
      Last(now) == e && now.versions != [] && now == was.(versions := now.versions, pass := None)
  {
  }

  /** The cleanups of a deletion finish in one go. */
  predicate Finishes(r: Env, inputs: Inputs) {
    CleanedUp(r, inputs.template, inputs.undeploy, inputs.deprovision)
  }

  /** Where each outcome of a fresh deletion leads. */
  lemma FateLeads(fate: Fate, was: State, now: State, read: nat, r: Env, c: Cleanup, released: bool)
    requires !was.gone && was.versions != [] && read == |was.versions| - 1 && r == Last(was) && r.deleting
    requires Meets(fate, was, now, read, r, c, released)
    ensures fate.Releases? || fate.Removes? ==> now.gone
    ensures fate.Fails? ==> !now.gone && Last(now) == r.(ready := fate.reason) && now.namespaces == was.namespaces
    ensures fate.Cleans? ==> !now.gone && Last(now) == r.(cleanup := true) && now.namespaces == was.namespaces
  {
    match fate {
      case Releases =>
      case Removes(_) =>
      case Waits =>
      case Fails(reason) => FreshPatch(was, read, r, r.(ready := reason));
      case Cleans => FreshPatch(was.(cleanups := was.cleanups + [c]), read, r, r.(cleanup := true));
    }
    hide LandCall;
  }

  /** What a fresh pass over a deleted environment leads to. */
  lemma DeletionPass(me: string, was: State, now: State, inputs: Inputs)
    requires Last(was).deleting && FreshPass(me, was, now, inputs)
    ensures Stuck(me, was, Last(was)) ==> !now.gone && Last(now).deleting && Stuck(me, now, Last(now))
    ensures var r := Last(was);
      !Stuck(me, was, r) && (!Aimed(r) || !Mine(me, was, r) || r.cleanup) ==> now.gone
    ensures var r := Last(was);
      Aimed(r) && Mine(me, was, r) && !r.cleanup && Finishes(r, inputs) ==>
        Last(now) == r.(cleanup := true) && Mine(me, now, Last(now)) && !now.gone
  {
    hide Owns, IsLength, FateOf, CleanedUp, Meets;
    var r, read := Last(was), |was.versions| - 1;
    var begun := Start(was, read);
    var fate := FateOf(me, begun, r, inputs.template, inputs.undeploy, inputs.deprovision);
    var c := Cleanup(read, inputs.template.Found?, inputs.undeploy.AllDone?, inputs.deprovision.AllDone?);
    OutcomesOfDeletion(me, begun, r, inputs.template, inputs.undeploy, inputs.deprovision);
    var released :| Meets(fate, begun, now, read, r, c, released);
    FateLeads(fate, begun, now, read, r, c, released);
  }

  /** The end of an environment. A deleted environment whose cleanups finish is gone after two fresh
      passes at most, the first of which cleans up and the second of which deletes the namespace and
      releases it, exactly unless it is stuck; and then no fresh pass ever releases it. */
  lemma DeletionEnds(me: string, was: State, mid: State, now: State, first: Inputs, second: Inputs)
    requires Last(was).deleting && FreshPass(me, was, mid, first) && Finishes(Last(was), first)
    requires !mid.gone ==> FreshPass(me, mid, now, second)
    ensures mid.gone || now.gone <==> !Stuck(me, was, Last(was))
    ensures Stuck(me, was, Last(was)) ==> Last(now).deleting && Stuck(me, now, Last(now))
  {
    hide FreshPass, Finishes, Owns, Last, IsLength;
    DeletionPass(me, was, mid, first);
    if !mid.gone && Last(mid).deleting { DeletionPass(me, mid, now, second); }
  }

  // ---- towards work -----------------------------------------------------------------------------------

  /** The namespace can be used: it is the environment's own and stays, or it can be created. */
  predicate Usable(me: string, s: State, r: Env) {
    (Mine(me, s, r) && !s.namespaces[r.target.value].terminating) || (Absent(s, r) && !r.bound)
  }

  /** When a pass over a live environment binds, and when it does work: exactly when it gets to a
      namespace that can be used. */
  lemma OutcomesOfPass(me: string, s: State, r: Env, probe: nat -> N.Probe, gate: Gate, failure: Option<string>)
    ensures var e := Sent(me, s, r, probe, gate, failure);
      && (r.bound ==> e.bound)
      && (e.bound && !r.bound <==> Aimed(r) && gate.Open? && !r.bound && Usable(me, s, r))
      && (Works(me, s, r, gate) <==> Aimed(r) && gate.Open? && r.bound && Usable(me, s, r))
      && e.deleting == r.deleting && e.finalizer == r.finalizer && e.cleanup == r.cleanup
  {
    hide Owns, IsLength, N.Allocation;
  }

  /** When it sets the target: when there is none, or when the name is another's and nothing is bound
      yet; and what becomes of a bound one whose name is another's. */
  lemma TargetsOfPass(me: string, s: State, r: Env, probe: nat -> N.Probe, gate: Gate, failure: Option<string>)
    ensures var e := Sent(me, s, r, probe, gate, failure);
      var taken := Aimed(r) && gate.Open? && !Absent(s, r) && !Mine(me, s, r);
      && (r.target.None? || (taken && !r.bound) ==>
            var n := N.Allocation(me, if r.target.None? then 8 else r.target.value + 4, probe);
            e == if n.Ok? then r.(target := Some(n.value)) else r)
      && (e.target != r.target ==> r.target.None? || (taken && !r.bound))
      && (taken && r.bound ==> e == r.(ready := "NamespaceNotManaged"))
  {
    hide Owns, IsLength, N.Allocation;
  }

  /** What a pass reports: the reason that stopped it, or nothing new. */
  lemma ReasonsOfPass(me: string, s: State, r: Env, probe: nat -> N.Probe, gate: Gate, failure: Option<string>)
    ensures var e := Sent(me, s, r, probe, gate, failure);
      && (r.target.Some? && !Aimed(r) ==> e == r.(ready := "InvalidConfiguration"))
      && (Aimed(r) && gate.Broken? ==> e == r.(ready := gate.reason))
      && (Aimed(r) && (gate.Halted? || gate.Expired?) ==> e == r)
      && (Works(me, s, r, gate) ==> e == if failure.Some? then r.(ready := failure.value) else r)
  {
    hide Owns, IsLength, Placed, Creation;
  }

  /** How many passes an environment is away from its work. */
  function Ahead(r: Env): nat {
    if !r.finalizer then 3 else if r.target.None? then 2 else if !r.bound then 1 else 0
  }

  /** Nothing stands in the way of the pass: the gate is open, a name is found, the namespace can be
      used. */
  ghost predicate Favoured(me: string, s: State, r: Env, inputs: Inputs) {
    && me != "" && !r.deleting && inputs.gate.Open?
    && (r.finalizer && r.target.None? ==> N.Allocation(me, 8, inputs.probe).Ok?)
    && (r.finalizer && r.target.Some? ==> Aimed(r) && Usable(me, s, r))
  }

  /** A pass over a live environment with its finalizer leaves what it made of it. */
  lemma LivePass(me: string, was: State, now: State, inputs: Inputs)
    requires FreshPass(me, was, now, inputs) && !Last(was).deleting && Last(was).finalizer && !inputs.gate.Expired?
    ensures var r := Last(was);
      var begun := Start(was, |was.versions| - 1);
      var reached := Reached(me, begun, |was.versions| - 1, r, inputs.gate);
      && Last(now) == Sent(me, begun, r, inputs.probe, inputs.gate, inputs.failure)
      && now.versions != [] && now == reached.(versions := now.versions, pass := None)
  {
    var r, read := Last(was), |was.versions| - 1;
    var begun := Start(was, read);
    var reached := Reached(me, begun, read, r, inputs.gate);
    assert reached.versions == was.versions && reached.gone == was.gone;
    OutcomesOfPass(me, begun, r, inputs.probe, inputs.gate, inputs.failure);
    hide LandCall, Sent, Reached, Works;
    FreshPatch(reached, read, r, Sent(me, begun, r, inputs.probe, inputs.gate, inputs.failure));
  }

  /** A favoured pass takes the environment one step on, or does its work. */
  lemma FavouredPass(me: string, was: State, now: State, inputs: Inputs)
    requires FreshPass(me, was, now, inputs) && Favoured(me, was, Last(was), inputs)
    ensures !now.gone && now.versions != []
    ensures if Ahead(Last(was)) > 0 then Ahead(Last(now)) < Ahead(Last(was)) else Ahead(Last(now)) == 0
    ensures now.works == was.works + if Ahead(Last(was)) == 0 then [|was.versions| - 1] else []
    ensures Last(was).finalizer && Last(was).target.Some? ==> Usable(me, now, Last(now)) && Aimed(Last(now))
  {
    var r := Last(was);
    if r.finalizer {
      var begun := Start(was, |was.versions| - 1);
      OutcomesOfPass(me, begun, r, inputs.probe, inputs.gate, inputs.failure);
      TargetsOfPass(me, begun, r, inputs.probe, inputs.gate, inputs.failure);
      LivePass(me, was, now, inputs);
      hide Owns, N.Allocation, LandCall, Sent, Passes, Meets;
    }
  }

  /** A run of favoured passes, each over the environment as the one before has left it. */
  ghost predicate FavouredRun(me: string, states: seq<State>, inputs: seq<Inputs>) {
    && |states| == |inputs| + 1
    && (forall i | 0 <= i < |inputs| :: FreshPass(me, states[i], states[i + 1], inputs[i]))
    && (forall i | 0 <= i < |inputs| :: Favoured(me, states[i], Last(states[i]), inputs[i]))
  }

  /** From its creation an environment comes to its work: of n favoured passes all do work but three at
      most, which set the finalizer, the target and the flag. */
  lemma {:induction false} WorkFollows(me: string, states: seq<State>, inputs: seq<Inputs>)
    requires FavouredRun(me, states, inputs)
    ensures var first, last := states[0], states[|states| - 1];
      |last.works| + Ahead(Last(first)) >= |first.works| + |inputs|
    decreases |inputs|
  {
    hide FreshPass, Favoured, Last;
    if inputs != [] {
      assert FreshPass(me, states[0], states[1], inputs[0]) && Favoured(me, states[0], Last(states[0]), inputs[0]);
      FavouredPass(me, states[0], states[1], inputs[0]);
      WorkFollows(me, states[1..], inputs[1..]);
    }
  }
}
