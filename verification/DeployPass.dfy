/** The loops of a deployment pass as they run, each equal to its specification. */
module DeployPass {
  import opened Wrappers
  import opened Template
  import opened ComponentStatus
  import E = Environment
  import opened Backoff
  import opened Deploy

  /** recordRuntimeFailure, and what every caller does with its answer. */
  method Record(env: E.Env, name: string, reason: string) returns (exhausted: bool)
    modifies env
    ensures env.Now() == old(env.Now()).(components := Struck(old(env.components), name, reason))
    ensures exhausted == Exhausts(old(env.components), name)
  {
    ghost var cs := env.components;
    var e := Get(cs, name);
    PutIsUpdate(cs, e.(retries := Wrap32(e.retries + 1), phase := Pending, since := None, reason := reason), name);
    exhausted := env.RecordRuntimeFailure(name, reason);
    if exhausted { env.SetComponentPhase(name, Failed); }
  }

  method AdoptShared(env: E.Env, need: seq<ComponentSpec>, reply: Replies)
    modifies env
    ensures env.Now() == Steps(Adoption, Blank(old(env.Now())), need, reply, NO_LIMIT).status
  {
    ghost var start := env.Now();
    for i := 0 to |need|
      invariant Steps(Adoption, Blank(start), need, reply, NO_LIMIT) ==
                Steps(Adoption, Blank(env.Now()), need[i..], reply, NO_LIMIT)
    {
      assert need[i..][1..] == need[i + 1..];
      var c := need[i];
      var submitted := reply(c.name).submitted;
      if IsShared(c) && submitted.Accepted? {
        env.SetComponentPhase(c.name, if submitted.atOnce then Ready else Submitting);
        env.SetComponentShared(c.name);
        if submitted.atOnce { env.ResetComponentFailure(c.name); }
      }
    }
  }

  /** The second loop of submitDeploys, one component. */
  method SubmitOne(env: E.Env, c: ComponentSpec, o: Submitted, ghost t: Tally)
    returns (full: bool, exhausted: bool, retrying: bool, waiting: bool)
    requires t.status == env.Now() && t.over.None?
    modifies env
    ensures AfterSubmit(t, c, o) ==
            Tally(env.Now(), t.exhausted || exhausted, t.retrying || retrying, t.running || waiting,
                  if full then Some(Returned(Never)) else None)
  {
    full, exhausted, retrying, waiting := false, false, false, false;
    match o {
      case Accepted(_) =>
        if !IsShared(c) { env.SetComponentPhase(c.name, Submitting); }
      case NotReadyYet => waiting := true;
      case AtCapacity =>
        if IsShared(c) {
          env.SetComponentPhase(c.name, Failed);
          env.SetFailed("SharedComponentAtCapacity");
          full := true;
        } else {
          exhausted := Record(env, c.name, "shared component at capacity");
          retrying := !exhausted;
        }
      case Refused(reason) =>
        exhausted := Record(env, c.name, reason);
        retrying := !exhausted;
    }
  }

  method SubmitDeploys(env: E.Env, need: seq<ComponentSpec>, reply: Replies) returns (result: Outcome)
    modifies env
    ensures End(env.Now(), Some(result)) == SubmitPass(old(env.Now()), need, reply)
  {
    hide AfterSubmit;
    AdoptShared(env, need, reply);
    ghost var start := Blank(env.Now());
    var exhausted, retrying, waiting := false, false, false;
    for i := 0 to |need|
      invariant Steps(Submission, start, need, reply, NO_LIMIT) ==
                Steps(Submission, Tally(env.Now(), exhausted, retrying, waiting, None), need[i..], reply, NO_LIMIT)
    {
      assert need[i..][1..] == need[i + 1..];
      var full, gone, again, wait :=
        SubmitOne(env, need[i], reply(need[i].name).submitted, Tally(env.Now(), exhausted, retrying, waiting, None));
      exhausted, retrying, waiting := exhausted || gone, retrying || again, waiting || wait;
      if full { return Returned(Never); }
    }
    if exhausted {
      env.SetFailed("DeployFailed");
      return Returned(Never);
    }
    if retrying {
      var wait := DeployBackoff(env.components, need);
      return Returned(After(wait));
    }
    if waiting {
      return Returned(After(REQUEUE_AFTER));
    }
    return Returned(After(REQUEUE_AFTER));
  }

  method ObserveShared(env: E.Env, c: ComponentSpec, o: Observed, ghost t: Tally) returns (ok: bool, done: bool)
    requires t.status == env.Now() && t.over.None?
    modifies env
    ensures Watched(t, c, o) ==
            t.(status := env.Now(), running := t.running || (ok && !done), over := if ok then None else Some(Errored))
  {
    match o {
      case JobPending => env.SetComponentPhase(c.name, Pending);
      case JobRunning =>
      case JobSucceeded =>
        env.SetComponentPhase(c.name, Ready);
        env.ResetComponentFailure(c.name);
        return true, true;
      case JobFailed(reason) =>
        var exhausted := Record(env, c.name, "provision: " + reason);
        if exhausted { env.SetFailed("ProvisionFailed"); }
      case ObserveError => return false, false;
    }
    return true, false;
  }

  method ObserveOne(env: E.Env, c: ComponentSpec, o: Observed, now: int, ghost t: Tally)
    returns (over: Option<Outcome>, running: bool, retrying: bool)
    requires t.status == env.Now() && t.over.None? && !t.exhausted
    modifies env
    ensures var u := AfterObserve(t, c, o, now);
      u.(exhausted := false) == Tally(env.Now(), false, t.retrying || retrying, t.running || running, over)
      && (u.exhausted ==> over.Some?)
  {
    over, running, retrying := None, false, false;
    match o {
      case JobPending =>
        env.SetComponentPhase(c.name, Pending);
        running := true;
      case JobRunning => running := true;
      case JobSucceeded =>
        env.SetComponentPhase(c.name, ComponentPhase.Deploying);
        env.SetComponentDeployingSince(c.name, now);
      case JobFailed(reason) =>
        var exhausted := Record(env, c.name, reason);
        if exhausted {
          env.SetFailed("DeployFailed");
          over := Some(Returned(Never));
        } else {
          retrying := true;
        }
      case ObserveError => over := Some(Errored);
    }
  }

  method ObserveDeploys(env: E.Env, need: seq<ComponentSpec>, reply: Replies) returns (result: Option<Outcome>)
    modifies env
    ensures End(env.Now(), result) == ObservePass(old(env.Now()), need, reply)
  {
    hide AfterObserve, Watched;
    ghost var start := Blank(env.Now());
    var retrying, running := false, false;
    for i := 0 to |need|
      invariant Steps(Observation, start, need, reply, NO_LIMIT) ==
                Steps(Observation, Tally(env.Now(), false, retrying, running, None), need[i..], reply, NO_LIMIT)
    {
      assert need[i..][1..] == need[i + 1..];
      var a := reply(need[i].name);
      var over, more, again;
      if IsShared(need[i]) {
        var previousRetries := Get(env.components, need[i].name).retries;
        var ok, done := ObserveShared(env, need[i], a.observed, Tally(env.Now(), false, retrying, running, None));
        over, more := if ok then None else Some(Errored), ok && !done;
        again := ok && Get(env.components, need[i].name).retries > previousRetries;
      } else {
        over, more, again :=
            ObserveOne(env, need[i], a.observed, a.now, Tally(env.Now(), false, retrying, running, None));
      }
      retrying, running := retrying || again, running || more;
      if over.Some? { return over; }
    }
    if retrying {
      var wait := DeployBackoff(env.components, need);
      return Some(Returned(After(wait)));
    }
    if running { return Some(Returned(After(REQUEUE_AFTER))); }
    return None;
  }

  method CheckOne(env: E.Env, c: ComponentSpec, o: Checked, now: int, timeout: Limit, ghost t: Tally)
    returns (over: Option<Outcome>, running: bool, retrying: bool)
    requires t.status == env.Now() && t.over.None? && !t.exhausted
    modifies env
    ensures var u := AfterCheck(t, c, o, now, timeout);
      u.(exhausted := false) == Tally(env.Now(), false, t.retrying || retrying, t.running || running, over)
      && (u.exhausted ==> over.Some?)
  {
    over, running, retrying := None, false, false;
    var since := Get(env.components, c.name).since;
    if since.Some? && now - since.value > timeout.value {
      var exhausted := Record(env, c.name, TIMED_OUT + timeout.text);
      if exhausted {
        env.SetFailed("ReadinessTimeout");
        over := Some(Returned(Never));
      } else {
        retrying := true;
      }
      return;
    }
    match o {
      case IsReady =>
        env.SetComponentPhase(c.name, Ready);
        env.ResetComponentFailure(c.name);
      case NotYet => running := true;
      case CheckError => over := Some(Errored);
    }
  }

  method CheckReadiness(env: E.Env, need: seq<ComponentSpec>, reply: Replies, timeout: Limit) returns (result: Outcome)
    modifies env
    ensures End(env.Now(), Some(result)) == CheckPass(old(env.Now()), need, reply, timeout)
  {
    hide AfterCheck;
    ghost var start := Blank(env.Now());
    var retrying, running := false, false;
    for i := 0 to |need|
      invariant Steps(Check, start, need, reply, timeout) ==
                Steps(Check, Tally(env.Now(), false, retrying, running, None), need[i..], reply, timeout)
    {
      assert need[i..][1..] == need[i + 1..];
      var a := reply(need[i].name);
      var over, more, again :=
        CheckOne(env, need[i], a.checked, a.now, timeout, Tally(env.Now(), false, retrying, running, None));
      retrying, running := retrying || again, running || more;
      if over.Some? { return over.value; }
    }
    if retrying {
      var wait := DeployBackoff(env.components, need);
      return Returned(After(wait));
    }
    return Returned(After(if running then REQUEUE_AFTER else SECOND));
  }

  /** `handed` is what is handed to submitDeploys. */
  method ProcessLevel(env: E.Env, level: seq<ComponentSpec>, phases: map<string, ComponentPhase>,
                      fetched: bool, reply: Replies, timeout: Limit)
    returns (result: Outcome, ghost handed: seq<ComponentSpec>)
    modifies env
    ensures End(env.Now(), Some(result)) == LevelPass(old(env.Now()), level, phases, fetched, reply, timeout)
    ensures handed == if fetched then Select(level, phases, Submission) else []
  {
    handed := [];
    hide SubmitPass, ObservePass, CheckPass;
    var needDeploy, submitting, needCheck := PartitionLevel(level, phases);
    if needDeploy != [] {
      if !fetched { return Errored, handed; }
      handed := needDeploy;
      result := SubmitDeploys(env, needDeploy, reply);
      return;
    }
    if submitting != [] {
      if !fetched { return Errored, handed; }
      var observed := ObserveDeploys(env, submitting, reply);
      if observed.Some? { return observed.value, handed; }
    }
    result := CheckReadiness(env, needCheck, reply, timeout);
  }
}
