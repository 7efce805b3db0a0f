/** reconcile, from the template on: what a pass over a bound environment does to its status. */
module Reconcile {
  import opened Wrappers
  import opened Template
  import opened DependencyGraph
  import opened Kahn
  import opened ComponentStatus
  import E = Environment
  import opened Backoff
  import D = Deploy
  import DeployPass

  type Levels = seq<seq<ComponentSpec>>

  const MAX_RELEASE_NAME := 53

  /** What the steps before the levels come to. */
  datatype Gate = Halts(result: D.Outcome) | Fails(reason: string) | Expires
      | Opens(components: seq<ComponentSpec>, timeout: D.Limit)

  /** The input to one pass. reset: the spec has a new generation. */
  datatype Pass = Pass(reset: bool, gate: Gate, envName: string, fetched: bool, reply: D.Replies)

  predicate TooLong(envName: string, c: ComponentSpec) {
    |envName + "-" + c.name| > MAX_RELEASE_NAME
  }

  predicate AllReady(level: seq<ComponentSpec>, phases: map<string, ComponentPhase>) {
    forall c | c in level :: c.name in phases && phases[c.name] == Ready
  }

  /** The first level that is not ready, or their number. */
  function FirstPending(levels: Levels, phases: map<string, ComponentPhase>): (l: nat)
    ensures l <= |levels|
    ensures l < |levels| ==> !AllReady(levels[l], phases)
    ensures forall k | 0 <= k < l :: AllReady(levels[k], phases)
  {
    if levels == [] || !AllReady(levels[0], phases) then 0 else 1 + FirstPending(levels[1..], phases)
  }

  function Generation(s: E.Status, reset: bool): E.Status {
    if reset then s.(phase := E.EnvPhase.Unset, components := []) else s
  }

  function EnterDeploying(s: E.Status, work: bool): E.Status {
    if s.phase != E.EnvPhase.Deploying && (work || s.phase != E.EnvPhase.Ready)
    then s.(phase := E.EnvPhase.Deploying) else s
  }

  function Open(s: E.Status, p: Pass, levels: Levels): D.End
    requires p.gate.Opens?
  {
    var phases := D.PhaseByName(s.components);
    var first := FirstPending(levels, phases);
    var s1 := EnterDeploying(s, first < |levels|);
    if first < |levels| then D.LevelPass(s1, levels[first], phases, p.fetched, p.reply, p.gate.timeout)
    else D.End(s1.(phase := E.EnvPhase.Ready), Some(D.Returned(D.Never)))
  }

  /** The status and the result of a pass, given what BuildLevels answers. */
  function AfterPass(s: E.Status, p: Pass, levels: Result<Levels, GraphError>): D.End {
    var s0 := Generation(s, p.reset);
    match p.gate
    case Halts(result) => D.End(s0, Some(result))
    case Fails(reason) => D.End(D.FailWith(s0, reason), Some(D.Returned(D.Never)))
    case Expires => D.End(s0.(phase := E.EnvPhase.Terminating), Some(D.Returned(D.Never)))
    case Opens(cs, _) =>
      if levels.Err? || exists c | c in cs :: TooLong(p.envName, c)
      then D.End(D.FailWith(s0, "InvalidConfiguration"), Some(D.Returned(D.Never)))
      else if s0.phase == E.EnvPhase.Failed then D.End(s0, Some(D.Returned(D.Never)))
      else Open(s0, p, levels.value)
  }

  /** What BuildLevels may answer. */
  ghost predicate Answers(p: Pass, levels: Result<Levels, GraphError>) {
    p.gate.Opens? ==>
      var cs := p.gate.components;
      && (levels.Ok? <==> UniqueNames(cs) && KnownDependencies(cs) && Acyclic(cs))
      && (levels.Ok? ==> ExactLevels(cs, levels.value))
  }

  /** The components a pass hands to submitDeploys. */
  function Handed(s: E.Status, p: Pass, levels: Result<Levels, GraphError>): seq<ComponentSpec> {
    if !p.gate.Opens? || levels.Err? || (exists c | c in p.gate.components :: TooLong(p.envName, c)) then []
    else
      var s0 := Generation(s, p.reset);
      var phases := D.PhaseByName(s0.components);
      var first := FirstPending(levels.value, phases);
      if s0.phase == E.EnvPhase.Failed || first == |levels.value| || !p.fetched then []
      else D.Select(levels.value[first], phases, D.Submission)
  }

  method IsAllReady(level: seq<ComponentSpec>, phases: map<string, ComponentPhase>) returns (ready: bool)
    ensures ready == AllReady(level, phases)
  {
    for i := 0 to |level|
      invariant forall j | 0 <= j < i :: level[j].name in phases && phases[level[j].name] == Ready
    {
      if level[i].name !in phases || phases[level[i].name] != Ready { return false; }
    }
    return true;
  }

  method FindFirstPending(levels: Levels, phases: map<string, ComponentPhase>) returns (first: nat)
    ensures first == FirstPending(levels, phases)
  {
    for i := 0 to |levels|
      invariant FirstPending(levels, phases) == i + FirstPending(levels[i..], phases)
    {
      var ready := IsAllReady(levels[i], phases);
      if !ready { return i; }
      assert levels[i..][1..] == levels[i + 1..];
    }
    return |levels|;
  }

  method CollectPhases(cs: seq<Entry>) returns (phases: map<string, ComponentPhase>)
    ensures phases == D.PhaseByName(cs)
  {
    phases := map[];
    for i := 0 to |cs|
      invariant phases == D.PhaseByName(cs[..i])
    {
      assert cs[..i + 1][..i] == cs[..i];
      phases := phases[cs[i].name := cs[i].phase];
    }
    assert cs[..|cs|] == cs;
  }

  method AnyTooLong(envName: string, cs: seq<ComponentSpec>) returns (found: bool)
    ensures found <==> exists c | c in cs :: TooLong(envName, c)
  {
    for i := 0 to |cs|
      invariant forall j | 0 <= j < i :: !TooLong(envName, cs[j])
    {
      if TooLong(envName, cs[i]) {
        assert cs[i] in cs;
        return true;
      }
    }
    return false;
  }

  method DeployEnvironment(env: E.Env, p: Pass, levels: Levels)
    returns (result: D.Outcome, ghost handed: seq<ComponentSpec>)
    requires p.gate.Opens?
    modifies env
    ensures var phases := D.PhaseByName(old(env.components));
      var first := FirstPending(levels, phases);
      handed == if first == |levels| || !p.fetched then [] else D.Select(levels[first], phases, D.Submission)
    ensures D.End(env.Now(), Some(result)) == Open(old(env.Now()), p, levels)
  {
    hide D.LevelPass;
    var phases := CollectPhases(env.components);
    var first := FindFirstPending(levels, phases);
    if env.phase != E.EnvPhase.Deploying && (first < |levels| || env.phase != E.EnvPhase.Ready) {
      env.phase := E.EnvPhase.Deploying;
    }
    if first < |levels| {
      result, handed := DeployPass.ProcessLevel(env, levels[first], phases, p.fetched, p.reply, p.gate.timeout);
      return;
    }
    env.phase := E.EnvPhase.Ready;
    return D.Returned(D.Never), [];
  }

  /** The pass as it runs; `levels` is what BuildLevels answered, `handed` what was handed to
      submitDeploys. */
  method ReconcileOnce(env: E.Env, p: Pass)
    returns (result: D.Outcome, ghost levels: Result<Levels, GraphError>, ghost handed: seq<ComponentSpec>)
    modifies env
    ensures Answers(p, levels)
    ensures D.End(env.Now(), Some(result)) == AfterPass(old(env.Now()), p, levels)
    ensures handed == Handed(old(env.Now()), p, levels)
  {
    hide Open, ExactLevels, UniqueNames, KnownDependencies, Acyclic;
    levels, handed := Err(Unknown), [];
    if p.reset {
      env.phase, env.components := E.EnvPhase.Unset, [];
    }
    match p.gate {
      case Halts(halted) => return halted, levels, handed;
      case Fails(reason) =>
        env.SetFailed(reason);
        return D.Returned(D.Never), levels, handed;
      case Expires =>
        env.phase := E.EnvPhase.Terminating;
        return D.Returned(D.Never), levels, handed;
      case Opens(cs, _) =>
        var built := BuildLevels(cs);
        levels := built;
        var tooLong := AnyTooLong(p.envName, cs);
        if built.Err? || tooLong {
          env.SetFailed("InvalidConfiguration");
          return D.Returned(D.Never), levels, handed;
        }
        if env.phase == E.EnvPhase.Failed { return D.Returned(D.Never), levels, handed; }
        result, handed := DeployEnvironment(env, p, built.value);
    }
  }
}
