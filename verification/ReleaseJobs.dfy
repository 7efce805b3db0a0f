/**
  submitDeploys and observeDeploys for one Helm component: both render it, in whatever order,
  and come to the same payload, so the Job that was submitted is the one that is observed.
 */
module ReleaseJobs {
  import opened Wrappers
  import opened Turns
  import opened Template
  import opened JobProtocol
  import opened JobConvergence
  import opened JobServer
  import V = ConsumerValues

  /** What enters the payload; marshal stands for marshalling. */
  datatype Inputs = Inputs(
    env: V.Spec,
    component: ComponentSpec,
    bindings: V.Bindings,
    render: V.Renderer,
    attempt: int,
    marshal: ComponentSpec -> string)

  predicate Visits(i: Inputs, first: seq<string>, second: seq<string>) {
    V.Enumerates(first, V.EffectiveEnv(i.env, i.component)) && V.Enumerates(second, V.EffectiveEnv(i.env, i.component))
  }

  /** The payload of these inputs, whatever the order of iteration. */
  ghost function Wanted(i: Inputs): Option<Payload> {
    var out := V.Rendered(i.env, i.component, i.bindings, i.render);
    if out.Ok? then Some(Payload(i.attempt, i.marshal(out.value))) else None
  }

  /** What a payload tells: which attempt it is, and what the component was rendered to; and nothing else. So
      the next attempt, or a change of a value, asks for another Job, and nothing else does. */
  lemma WantedTells(i: Inputs, j: Inputs)
    requires i.marshal == j.marshal && forall c, d :: i.marshal(c) == i.marshal(d) ==> c == d
    requires Wanted(i).Some? && Wanted(j).Some?
    ensures Wanted(i) == Wanted(j) <==>
              && i.attempt == j.attempt
              && V.Rendered(i.env, i.component, i.bindings, i.render) ==
                 V.Rendered(j.env, j.component, j.bindings, j.render)
    ensures Wanted(i).value.attempt == i.attempt
  {
    hide V.Rendered;
  }

  method Marshal(i: Inputs, first: seq<string>, second: seq<string>) returns (payload: Option<Payload>)
    requires Visits(i, first, second)
    ensures payload == Wanted(i)
  {
    var out := V.RenderConsumerValues(i.env, i.component, i.bindings, i.render, first, second);
    match out {
      case Ok(rendered) => return Some(Payload(i.attempt, i.marshal(rendered)));
      case Err(_) => return None;
    }
  }

  /** A component that does not render is not submitted. */
  method SubmitRelease(server: Server, pid: nat, i: Inputs, first: seq<string>, second: seq<string>, version: nat,
                       env: nat -> Turn<Action>)
    returns (ok: bool)
    requires server.Valid() && pid !in server.state.submits && Undisturbed(env, pid) && Visits(i, first, second)
    modifies server
    ensures server.Valid() && old(server.log) <= server.log
    ensures Wanted(i).None? ==> !ok && server.state == old(server.state)
    ensures Wanted(i).Some? && Calm(env) ==>
              server.state == WholeSubmit(old(server.state), pid, Wanted(i).value, version)
    ensures forall d | d in server.state.deletions :: d in old(server.state).deletions || Harmless(d)
  {
    hide V.Enumerates, Execute, WholeSubmit, Harmless;
    var payload := Marshal(i, first, second);
    if payload.None? { return false; }
    ok := JobServer.Submit(server, pid, payload.value, version, env);
  }

  /** What is observed is the Job of these inputs; with a cache that has caught up, exactly. */
  method ObserveRelease(server: Server, pid: nat, i: Inputs, first: seq<string>, second: seq<string>, version: nat,
                        turn: Turn<Action>, pods: Pods)
    returns (v: Option<Verdict>, reason: string)
    requires server.Valid() && Foreign(turn.before, pid) && Visits(i, first, second)
    modifies server
    ensures server.Valid()
    ensures v.None? <==> Wanted(i).None?
    ensures v.Some? && v.value.Ended? ==>
            v.value.phase != Running && Witness(server.state.slot, Wanted(i).value, v.value.phase)
    ensures v.Some? && Still(turn) && version + 1 == |old(server.state).past| ==>
              (v.value.Ended? <==> exists p :: p != Running && Witness(old(server.state).slot, Wanted(i).value, p))
  {
    hide V.Enumerates, Execute;
    var payload := Marshal(i, first, second);
    if payload.None? { return None, ""; }
    var seen;
    seen, reason := Observe(server, pid, payload.value, version, turn, "deploy", pods);
    return Some(seen), reason;
  }

  /** Submitted into an empty slot by a submit with a fresh cache, the Job runs with the very
      payload that any later observation of unchanged inputs asks for. */
  lemma SubmittedIsWanted(s: State, pid: nat, i: Inputs)
    requires Orderly(s) && pid !in s.submits && s.slot.None? && Wanted(i).Some?
    ensures var t := WholeSubmit(s, pid, Wanted(i).value, |s.past| - 1);
      Rank(t.slot, Wanted(i).value) == 1 && t.slot.value.payload == Wanted(i).value
  {
    hide V.Rendered;
    var payload := Wanted(i).value;
    assert s.past[|s.past| - 1] == None;
    assert Terminal([]) == Running;
  }
}
