/**
  submitShared, and the part of deprovisionShared that hands a secret to the Provisioner, one
  call after another with others between any two. Each is a step of BindingSecret.
 */
module SharedProvision {
  import opened Wrappers
  import opened BindingSecret
  import Deploy

  // ---- renderProvisionOptions --------------------------------------------------------------

  datatype Script = Script(text: string, command: seq<string>)

  type Renderer = string -> Option<string>

  predicate Renders(script: Script, render: Renderer) {
    render(script.text).Some? && forall c | c in script.command :: render(c).Some?
  }

  /** All of a valid script is rendered, or nothing. */
  method RenderProvisionOptions(script: Script, valid: bool, render: Renderer) returns (out: Option<Script>)
    ensures out.Some? <==> valid && Renders(script, render)
    ensures out.Some? ==> render(script.text) == Some(out.value.text) && |out.value.command| == |script.command|
    ensures out.Some? ==>
            forall i | 0 <= i < |script.command| :: render(script.command[i]) == Some(out.value.command[i])
  {
    if !valid { return None; }
    var text := render(script.text);
    if text.None? { return None; }
    var command := script.command;
    for i := 0 to |script.command|
      invariant |command| == |script.command|
      invariant forall j | 0 <= j < i :: render(script.command[j]) == Some(command[j])
    {
      var rendered := render(script.command[i]);
      if rendered.None? {
        assert script.command[i] in script.command;
        return None;
      }
      command := command[i := rendered.value];
    }
    return Some(Script(text.value, command));
  }

  // ---- the server ---------------------------------------------------------------------------

  predicate Foreign(run: seq<Action>, pid: nat) {
    forall a | a in run :: a.DeleteBinding? || a.pid != pid
  }

  predicate SameCall(s: State, t: State, pid: nat) {
    (pid in s.calls <==> pid in t.calls) && (pid in s.calls ==> s.calls[pid] == t.calls[pid])
  }

  lemma {:induction false} ForeignRun(s: State, run: seq<Action>, pid: nat)
    requires Foreign(run, pid)
    ensures SameCall(s, Execute(s, run), pid)
    decreases |run|
  {
    if run != [] {
      assert run[0] in run;
      assert SameCall(s, Apply(s, run[0]), pid);
      hide Apply;
      ForeignRun(Apply(s, run[0]), run[1..], pid);
    }
  }

  class Server {
    var state: State
    ghost var log: seq<Action>

    ghost predicate Valid()
      reads this
    {
      state == Execute(INITIAL, log)
    }

    constructor ()
      ensures Valid() && log == []
    {
      state, log := INITIAL, [];
    }

    method Do(a: Action)
      requires Valid()
      modifies this
      ensures Valid() && log == old(log) + [a] && state == Apply(old(state), a)
    {
      hide Apply;
      ExecuteConcat(INITIAL, log, [a]);
      state := Apply(state, a);
      log := log + [a];
    }

    method Others(run: seq<Action>, pid: nat)
      requires Valid() && Foreign(run, pid)
      modifies this
      ensures Valid() && log == old(log) + run && SameCall(old(state), state, pid)
      ensures run == [] ==> state == old(state)
    {
      ExecuteConcat(INITIAL, log, run);
      ForeignRun(state, run, pid);
      state := Execute(state, run);
      log := log + run;
    }
  }

  /** What the cache has of the binding. */
  datatype Cached = NotThere | There(version: nat) | CacheError

  function Version(cached: Cached): Option<nat> {
    if cached.There? then Some(cached.version) else None
  }

  datatype Registration = Admitted | NotReady | AtCapacity | RegisterError

  /** What the other calls are answered: the provider, the instance secret, what the binding's
      keys render to with a secret, the credentials secret, the Job. provision is the provider's
      script, if it has one. */
  datatype Answers = Answers(
    registration: Registration,
    provider: bool,
    instance: bool,
    keys: string -> Option<Data>,
    createLost: bool,
    provision: Option<Script>,
    valid: bool,
    credentials: bool,
    job: bool)

  const FAILED := Deploy.Refused("")

  /** The secret a call gets hold of when nobody else acts. */
  function Secret(s: State, cached: Cached, random: string, a: Answers): Option<string> {
    if cached.CacheError? || !a.instance then None
    else if Seen(s, Version(cached)).Some? then Seen(s, Version(cached))
    else if a.keys(random).Some? && !s.present && !a.createLost then Some(random)
    else None
  }

  /** What submitShared comes to then. */
  function Outcome(s: State, cached: Cached, random: string, a: Answers, render: Renderer): Deploy.Submitted {
    match a.registration
    case NotReady => Deploy.NotReadyYet
    case AtCapacity => Deploy.AtCapacity
    case RegisterError => FAILED
    case Admitted =>
      if !a.provider || Secret(s, cached, random, a).None? then FAILED
      else if a.provision.None? then Deploy.Accepted(true)
      else if a.valid && a.credentials && Renders(a.provision.value, render) && a.job then Deploy.Accepted(false)
      else FAILED
  }

  /** There is a secret to go on with: that of the binding in the cache; or the cache has none, and the
      binding is created, with keys that render, under a name that is free. */
  predicate Obtains(s: State, cached: Cached, random: string, a: Answers) {
    && !cached.CacheError? && a.instance
    && ((cached.There? && cached.version < |s.bindings|)
        || (a.keys(random).Some? && !s.present && !a.createLost))
  }

  /** The provider has no script, or its script could be rendered and submitted. */
  predicate Provisions(script: Script, a: Answers, render: Renderer) {
    a.valid && a.credentials && a.job
    && render(script.text).Some? && forall i | 0 <= i < |script.command| :: render(script.command[i]).Some?
  }

  /** When each answer comes: whoever is admitted, finds its provider and obtains a secret is accepted,
      at once without a script, with one when the script is submitted; all else is refused. */
  lemma OutcomesOfSubmit(s: State, cached: Cached, random: string, a: Answers, render: Renderer)
    ensures var out := Outcome(s, cached, random, a, render);
      var goesOn := a.registration.Admitted? && a.provider && Obtains(s, cached, random, a);
      && (out.NotReadyYet? <==> a.registration.NotReady?)
      && (out.AtCapacity? <==> a.registration.AtCapacity?)
      && (out == Deploy.Accepted(true) <==> goesOn && a.provision.None?)
      && (out == Deploy.Accepted(false) <==> goesOn && a.provision.Some? && Provisions(a.provision.value, a, render))
      && (out.Refused? <==>
            || a.registration.RegisterError?
            || (a.registration.Admitted? && !goesOn)
            || (goesOn && a.provision.Some? && !Provisions(a.provision.value, a, render)))
  {
    if a.provision.Some? {
      var script := a.provision.value;
      if forall i | 0 <= i < |script.command| :: render(script.command[i]).Some? {
        forall c | c in script.command ensures render(c).Some? {
          var i :| 0 <= i < |script.command| && script.command[i] == c;
        }
      }
      forall i | 0 <= i < |script.command| ensures script.command[i] in script.command {}
    }
  }

  /** Whose secret it is: the cached binding's own, and the new one only where the cache has none. */
  lemma SecretObtained(s: State, cached: Cached, random: string, a: Answers)
    ensures Secret(s, cached, random, a).Some? <==> Obtains(s, cached, random, a)
    ensures Obtains(s, cached, random, a) ==>
              Secret(s, cached, random, a).value ==
              if cached.There? && cached.version < |s.bindings| then SecretOf(s.bindings[cached.version]) else random
  {
  }

  /** The binding's secret: the one in the cache, or a new one if it can be created. */
  method EnsureBinding(server: Server, pid: nat, cached: Cached, random: string, a: Answers, others: seq<Action>)
    returns (secret: Option<string>)
    requires server.Valid() && pid !in server.state.calls && Foreign(others, pid)
    modifies server
    ensures server.Valid() && old(server.log) <= server.log
    ensures if secret.Some? then pid in server.state.calls && server.state.calls[pid] == Holding(secret.value)
            else pid !in server.state.calls
    ensures others == [] ==> secret == Secret(old(server.state), cached, random, a)
  {
    hide Execute;
    if cached.CacheError? { return None; }
    var seen := Seen(server.state, Version(cached));
    if !a.instance { return None; }
    server.Do(Submit(pid, Version(cached), random));
    if seen.Some? { return seen; }
    server.Others(others, pid);
    var keys := a.keys(random);
    if keys.None? || server.state.present {
      server.Do(Drop(pid));
      return None;
    }
    server.Do(Create(pid, keys.value));
    if a.createLost {
      server.Do(Drop(pid));
      return None;
    }
    return Some(random);
  }

  /** submitShared. What is handed to the Provisioner was written for its Job before, and is the
      secret of a binding there was unless a provider's key took its place. */
  method SubmitShared(server: Server, pid: nat, cached: Cached, random: string, a: Answers, render: Renderer,
                      others: seq<Action>)
    returns (out: Deploy.Submitted, ghost handed: Option<string>)
    requires server.Valid() && pid !in server.state.calls && Foreign(others, pid)
    modifies server
    ensures server.Valid() && old(server.log) <= server.log && pid !in server.state.calls
    ensures out == Deploy.NotReadyYet <==> a.registration == NotReady
    ensures out == Deploy.AtCapacity <==> a.registration == AtCapacity
    ensures out.Accepted? ==> a.registration == Admitted && (out.atOnce <==> a.provision.None?)
    ensures handed.Some? ==> handed.value in server.state.credentials && handed.value in server.state.uses
    ensures handed.Some? && NeverOverrides(INITIAL, server.log) ==> IsBound(server.state, handed.value)
    ensures out == Deploy.Accepted(false) ==> handed.Some?
    ensures others == [] ==> out == Outcome(old(server.state), cached, random, a, render)
    ensures others == [] && handed.Some? ==> handed == Secret(old(server.state), cached, random, a)
  {
    hide Execute, IsBound, NeverOverrides;
    handed := None;
    match a.registration {
      case NotReady => return Deploy.NotReadyYet, handed;
      case AtCapacity => return Deploy.AtCapacity, handed;
      case RegisterError => return FAILED, handed;
      case Admitted =>
    }
    if !a.provider { return FAILED, handed; }
    var secret := EnsureBinding(server, pid, cached, random, a, others);
    if secret.None? { return FAILED, handed; }
    if a.provision.None? || !a.valid {
      server.Do(Drop(pid));
      return if a.provision.None? then Deploy.Accepted(true) else FAILED, handed;
    }
    server.Do(Credential(pid));
    var options := RenderProvisionOptions(a.provision.value, a.valid, render);
    if !a.credentials || options.None? {
      server.Do(Drop(pid));
      return FAILED, handed;
    }
    handed := secret;
    HandOn(server, pid, secret.value);
    return if a.job then Deploy.Accepted(false) else FAILED, handed;
  }

  /** SubmitProvision, or observing and submitting a deprovisioning. */
  method HandOn(server: Server, pid: nat, ghost secret: string)
    requires server.Valid() && pid in server.state.calls && server.state.calls[pid] == Credentialed(secret)
    requires secret in server.state.credentials
    modifies server
    ensures server.Valid() && old(server.log) <= server.log && pid !in server.state.calls
    ensures secret in server.state.credentials && secret in server.state.uses
    ensures NeverOverrides(INITIAL, server.log) ==> IsBound(server.state, secret)
  {
    hide Execute, IsBound, NeverOverrides;
    server.Do(Provision(pid));
    assert server.state.uses[|server.state.uses| - 1] == secret;
    if NeverOverrides(INITIAL, server.log) { OneSecretPerBinding(server.log); }
  }

  /** deprovisionShared reads the binding and hands on its secret; without one it goes on. */
  method DeprovisionSecret(server: Server, pid: nat, cached: Cached) returns (secret: Option<string>)
    requires server.Valid() && pid !in server.state.calls
    modifies server
    ensures server.Valid() && old(server.log) <= server.log && pid !in server.state.calls
    ensures secret == if cached.CacheError? then None else Seen(old(server.state), Version(cached))
    ensures secret.Some? ==> secret.value in server.state.credentials && secret.value in server.state.uses
    ensures secret.Some? && NeverOverrides(INITIAL, server.log) ==> IsBound(server.state, secret.value)
  {
    hide Execute, IsBound, NeverOverrides;
    if cached.CacheError? { return None; }
    secret := Seen(server.state, Version(cached));
    server.Do(Deprovision(pid, Version(cached)));
    if secret.None? { return; }
    server.Do(Credential(pid));
    assert server.state.credentials[|server.state.credentials| - 1] == secret.value;
    HandOn(server, pid, secret.value);
  }
}
