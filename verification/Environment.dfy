/** An environment's status as the reconciler changes it in place. */
module Environment {
  import opened Wrappers
  import opened ComponentStatus

  datatype EnvPhase = Unset | Deploying | Ready | Failed | Terminating

  /** The part of the status that deployments move through; reason is that of the Ready
      condition, empty while there is none. */
  datatype Status = Status(phase: EnvPhase, components: seq<Entry>, reason: string)

  class Env {
    var phase: EnvPhase
    var components: seq<Entry>
    var reason: string

    function Now(): Status
      reads this
    {
      Status(phase, components, reason)
    }

    constructor (s: Status)
      ensures Now() == s
    {
      phase, components, reason := s.phase, s.components, s.reason;
    }

    method FindComponent(name: string) returns (i: nat)
      ensures i == Find(components, name)
    {
      for k := 0 to |components|
        invariant Find(components, name) == k + Find(components[k..], name)
      {
        if components[k].name == name { return k; }
        assert components[k..][1..] == components[k + 1..];
      }
      return |components|;
    }

    method SetComponentPhase(name: string, phase: ComponentPhase)
      modifies this
      ensures Now() == old(Now()).(components := SetPhase(old(components), name, phase))
    {
      var i := FindComponent(name);
      if i < |components| {
        components := components[i := components[i].(phase := phase)];
      } else {
        components := components + [Entry(name, false, phase, 0, None, "")];
      }
    }

    method SetComponentShared(name: string)
      modifies this
      ensures Now() == old(Now()).(components := SetShared(old(components), name))
    {
      var i := FindComponent(name);
      if i < |components| {
        components := components[i := components[i].(shared := true)];
      }
    }

    method RecordRuntimeFailure(name: string, reason: string) returns (exhausted: bool)
      modifies this
      ensures Now() == old(Now()).(components := RecordFailure(old(components), name, reason))
      ensures exhausted <==> Get(components, name).retries >= MAX_DEPLOY_RETRIES
    {
      var i := FindComponent(name);
      var was := Get(components, name);
      PutIsUpdate(components,
                  was.(retries := Wrap32(was.retries + 1), phase := Pending, since := None, reason := reason), name);
      if i < |components| {
        var e := components[i];
        components := components[i := e.(
          retries := Wrap32(e.retries + 1), reason := reason, phase := Pending, since := None)];
        return components[i].retries >= MAX_DEPLOY_RETRIES;
      }
      components := components + [Entry(name, false, Pending, 1, None, reason)];
      return MAX_DEPLOY_RETRIES <= 1;
    }

    method ResetComponentFailure(name: string)
      modifies this
      ensures Now() == old(Now()).(components := ResetFailure(old(components), name))
    {
      var i := FindComponent(name);
      if i < |components| {
        components := components[i := components[i].(retries := 0, reason := "")];
      }
    }

    method SetComponentDeployingSince(name: string, now: int)
      modifies this
      ensures Now() == old(Now()).(components := SetSince(old(components), name, now))
    {
      var i := FindComponent(name);
      if i < |components| && components[i].since.None? {
        components := components[i := components[i].(since := Some(now))];
      }
    }

    /** setFailed: the Ready condition turns false and the environment fails. */
    method SetFailed(reason: string)
      modifies this
      ensures Now() == old(Now()).(phase := EnvPhase.Failed, reason := reason)
    {
      this.reason := reason;
      this.phase := EnvPhase.Failed;
    }
  }
}
