/** deprovisionShared: allocations of shared components are given back one after the other. */
module Deprovision {
  import opened Wrappers
  import opened Template
  import opened DependencyGraph
  import opened ComponentStatus
  import E = Environment
  import opened Deploy
  import opened Undeploy

  /** What an allocation consists of, by the name of its component. */
  datatype Object =
    | ProvisionJob(name: string)
    | DeprovisionJob(name: string)
    | Credentials(name: string)
    | Binding(name: string)

  datatype Read = Present | Absent | ReadError

  datatype JobRead = NoJob | JobDeleting | JobAtWork | JobEnded | JobUnreadable

  /** What the calls for one shared component are answered. scripted: the provider has a
      deprovision script; removes: can this object be deleted now? */
  datatype Calls = Calls(
    component: Read,
    provider: Read,
    provision: JobRead,
    scripted: bool,
    removes: Object -> bool,
    binding: Read,
    credentials: bool,
    instance: bool,
    renders: bool,
    job: Observed,
    accepted: bool)

  type Answers = string -> Calls

  const DEPROVISION := "deprovision: "

  // ---- deletions ---------------------------------------------------------------------------

  /** The objects deleted, in order, up to the first that cannot be. */
  function Removed(objects: seq<Object>, removes: Object -> bool): seq<Object> {
    if objects == [] || !removes(objects[0]) then [] else [objects[0]] + Removed(objects[1..], removes)
  }

  predicate AllRemoved(objects: seq<Object>, removes: Object -> bool) {
    forall o | o in objects :: removes(o)
  }

  lemma {:induction false} RemovedIsPrefix(objects: seq<Object>, removes: Object -> bool)
    ensures Removed(objects, removes) <= objects
    ensures Removed(objects, removes) == objects <==> AllRemoved(objects, removes)
  {
    if objects != [] {
      RemovedIsPrefix(objects[1..], removes);
      assert objects == [objects[0]] + objects[1..];
    }
  }

  method Remove(objects: seq<Object>, removes: Object -> bool) returns (ok: bool, removed: seq<Object>)
    ensures removed == Removed(objects, removes)
    ensures ok <==> AllRemoved(objects, removes)
  {
    ok, removed := true, [];
    for i := 0 to |objects|
      invariant Removed(objects, removes) == removed + Removed(objects[i..], removes)
      invariant forall j | 0 <= j < i :: removes(objects[j])
    {
      assert objects[i..][1..] == objects[i + 1..];
      if !removes(objects[i]) {
        assert objects[i] in objects;
        return false, removed;
      }
      removed := removed + [objects[i]];
    }
  }

  function Unscripted(name: string): seq<Object> {
    [ProvisionJob(name), Credentials(name), Binding(name)]
  }

  function Whole(name: string): seq<Object> {
    [ProvisionJob(name), DeprovisionJob(name), Credentials(name), Binding(name)]
  }

  function Abandoned(name: string): seq<Object> {
    [Credentials(name), Binding(name)]
  }

  // ---- one component ---------------------------------------------------------------------------

  datatype Next = GoOn | Stop(verdict: Verdict, submitted: bool)

  /** The status, the objects deleted, and how the loop goes on. */
  datatype Step = Step(components: seq<Entry>, removed: seq<Object>, next: Next)

  function Deleting(cs: seq<Entry>, objects: seq<Object>, f: Calls): Step {
    Step(cs, Removed(objects, f.removes), if AllRemoved(objects, f.removes) then GoOn else Stop(Broken, false))
  }

  function Halt(cs: seq<Entry>, verdict: Verdict): Step {
    Step(cs, [], Stop(verdict, false))
  }

  /** Once the deprovision Job is observed. */
  function AfterJob(cs: seq<Entry>, name: string, f: Calls): Step {
    var submitting := Stop(if f.accepted then Waiting else Broken, true);
    match f.job
    case JobSucceeded => Deleting(cs, Whole(name), f)
    case JobRunning => Halt(cs, Waiting)
    case JobPending => Step(cs, [], submitting)
    case ObserveError => Halt(cs, Broken)
    case JobFailed(reason) =>
      var after := RecordFailure(cs, name, DEPROVISION + reason);
      if Exhausts(cs, name) then Deleting(after, Abandoned(name), f) else Step(after, [], submitting)
  }

  /** With a script: the secret of the binding is handed on, and the Job observed. */
  function AfterScript(cs: seq<Entry>, name: string, f: Calls): Step {
    if f.binding.Absent? then Step(cs, [], GoOn)
    else if f.binding.ReadError? || !f.credentials || !f.instance || !f.renders then Halt(cs, Broken)
    else AfterJob(cs, name, f)
  }

  function After(cs: seq<Entry>, c: ComponentSpec, f: Calls): Step {
    if !IsShared(c) || f.component.Absent? then Step(cs, [], GoOn)
    else if f.component.ReadError? then Halt(cs, Broken)
    else if f.provider.Absent? then Step(cs, [], GoOn)
    else if f.provider.ReadError? || f.provision.JobUnreadable? then Halt(cs, Broken)
    else if f.provision.JobDeleting? || f.provision.JobAtWork? then Halt(cs, Waiting)
    else if !f.scripted then Deleting(cs, Unscripted(c.name), f)
    else AfterScript(cs, c.name, f)
  }

  /** A whole pass. submitted: the component whose deprovisioning is submitted, if any. */
  datatype Pass = Pass(components: seq<Entry>, removed: seq<Object>, submitted: seq<ComponentSpec>, verdict: Verdict)

  function DeprovisionAll(cs: seq<Entry>, components: seq<ComponentSpec>, found: Answers): Pass
    decreases |components|
  {
    if components == [] then Pass(cs, [], [], Done)
    else
      var step := After(cs, components[0], found(components[0].name));
      match step.next
      case Stop(verdict, submitted) =>
        Pass(step.components, step.removed, if submitted then [components[0]] else [], verdict)
      case GoOn =>
        var rest := DeprovisionAll(step.components, components[1..], found);
        rest.(removed := step.removed + rest.removed)
  }

  // ---- as it runs ----------------------------------------------------------------------------------

  method SettleJob(env: E.Env, name: string, f: Calls) returns (next: Next, removed: seq<Object>)
    modifies env
    ensures env.Now() == old(env.Now()).(components := env.components)
    ensures AfterJob(old(env.components), name, f) == Step(env.components, removed, next)
  {
    removed := [];
    var ok;
    match f.job {
      case ObserveError => return Stop(Broken, false), removed;
      case JobRunning => return Stop(Waiting, false), removed;
      case JobSucceeded =>
        ok, removed := Remove(Whole(name), f.removes);
        return if ok then GoOn else Stop(Broken, false), removed;
      case JobPending =>
      case JobFailed(reason) =>
        FailureCounts(env.components, name, DEPROVISION + reason);
        var exhausted := env.RecordRuntimeFailure(name, DEPROVISION + reason);
        if exhausted {
          ok, removed := Remove(Abandoned(name), f.removes);
          return if ok then GoOn else Stop(Broken, false), removed;
        }
    }
    return Stop(if f.accepted then Waiting else Broken, true), removed;
  }

  /** The body of the loop for a shared component. */
  method Settle(env: E.Env, c: ComponentSpec, f: Calls) returns (next: Next, removed: seq<Object>)
    requires IsShared(c)
    modifies env
    ensures env.Now() == old(env.Now()).(components := env.components)
    ensures After(old(env.components), c, f) == Step(env.components, removed, next)
  {
    hide AfterJob, Removed, AllRemoved;
    removed := [];
    match f.component {
      case Absent => return GoOn, removed;
      case ReadError => return Stop(Broken, false), removed;
      case Present =>
    }
    match f.provider {
      case Absent => return GoOn, removed;
      case ReadError => return Stop(Broken, false), removed;
      case Present =>
    }
    match f.provision {
      case JobUnreadable => return Stop(Broken, false), removed;
      case JobDeleting => return Stop(Waiting, false), removed;
      case JobAtWork => return Stop(Waiting, false), removed;
      case NoJob =>
      case JobEnded =>
    }
    if !f.scripted {
      var ok;
      ok, removed := Remove(Unscripted(c.name), f.removes);
      return if ok then GoOn else Stop(Broken, false), removed;
    }
    match f.binding {
      case Absent => return GoOn, removed;
      case ReadError => return Stop(Broken, false), removed;
      case Present =>
    }
    if !f.credentials { return Stop(Broken, false), removed; }
    if !f.instance { return Stop(Broken, false), removed; }
    if !f.renders { return Stop(Broken, false), removed; }
    next, removed := SettleJob(env, c.name, f);
  }

  method DeprovisionShared(env: E.Env, components: seq<ComponentSpec>, found: Answers)
    returns (verdict: Verdict, removed: seq<Object>, ghost submitted: seq<ComponentSpec>)
    modifies env
    ensures env.Now() == old(env.Now()).(components := env.components)
    ensures Pass(env.components, removed, submitted, verdict) == DeprovisionAll(old(env.components), components, found)
  {
    hide After;
    ghost var cs, now := env.components, env.Now();
    removed, submitted := [], [];
    for i := 0 to |components|
      invariant env.Now() == now.(components := env.components)
      invariant var rest := DeprovisionAll(env.components, components[i..], found);
        DeprovisionAll(cs, components, found) == rest.(removed := removed + rest.removed)
    {
      assert components[i..][1..] == components[i + 1..];
      var c := components[i];
      if IsShared(c) {
        var next, more := Settle(env, c, found(c.name));
        removed := removed + more;
        match next {
          case Stop(stopped, sent) => return stopped, removed, if sent then [c] else [];
          case GoOn =>
        }
      } else {
        UnsharedGoesOn(env.components, c, found(c.name));
      }
    }
    return Done, removed, [];
  }

  lemma UnsharedGoesOn(cs: seq<Entry>, c: ComponentSpec, f: Calls)
    requires !IsShared(c)
    ensures After(cs, c, f) == Step(cs, [], GoOn)
  {
  }

  // ---- what it means ---------------------------------------------------------------------------------

  /** No provision Job is at work or on its way out, and the provider is known. */
  predicate AtRest(f: Calls) {
    f.component.Present? && f.provider.Present? && (f.provision.NoJob? || f.provision.JobEnded?)
  }

  /** The deprovision Job is done, or just failed for the last time. */
  predicate Finished(e: Entry, f: Calls) {
    f.job.JobSucceeded? || (f.job.JobFailed? && Wrap32(e.retries + 1) >= MAX_DEPLOY_RETRIES)
  }

  function Leftovers(name: string, f: Calls): seq<Object> {
    if !f.scripted then Unscripted(name) else if f.job.JobSucceeded? then Whole(name) else Abandoned(name)
  }

  /** Nothing of an allocation is left to wait for: there is none, or all of it could be deleted
      after its deprovisioning finished. */
  predicate Settled(c: ComponentSpec, e: Entry, f: Calls) {
    || !IsShared(c) || f.component.Absent? || (f.component.Present? && f.provider.Absent?)
    || (AtRest(f) && f.scripted && f.binding.Absent?)
    || (AtRest(f) && AllRemoved(Leftovers(c.name, f), f.removes)
        && (f.scripted ==> f.binding.Present? && f.credentials && f.instance && f.renders && Finished(e, f)))
  }

  predicate AllSettled(components: seq<ComponentSpec>, cs: seq<Entry>, found: Answers) {
    forall c | c in components :: Settled(c, Get(cs, c.name), found(c.name))
  }

  lemma AfterMeans(cs: seq<Entry>, c: ComponentSpec, f: Calls)
    ensures var step := After(cs, c, f);
      && (step.next.GoOn? <==> Settled(c, Get(cs, c.name), f))
      && (step.next.Stop? ==> step.next.verdict != Done && (step.next.submitted ==> IsShared(c)))
      && (forall n | n != c.name :: Get(step.components, n) == Get(cs, n))
      && (Get(step.components, c.name) == Get(cs, c.name) || f.job.JobFailed?)
  {
    hide Get, Wrap32, RecordFailure, Removed, AllRemoved;
    if f.job.JobFailed? { FailureRewrites(cs, c.name, DEPROVISION + f.job.reason); }
  }

  /** Nothing is taken away while a provision Job is at work, nor before a scripted
      deprovisioning finished. */
  predicate Safe(o: Object, cs: seq<Entry>, found: Answers) {
    var f := found(o.name);
    AtRest(f) && (f.scripted ==> f.binding.Present? && Finished(Get(cs, o.name), f))
  }

  lemma RemovedAreOf(name: string, removes: Object -> bool)
    ensures forall o | o in Removed(Unscripted(name), removes) :: o.name == name
    ensures forall o | o in Removed(Whole(name), removes) :: o.name == name
    ensures forall o | o in Removed(Abandoned(name), removes) :: o.name == name
  {
    RemovedIsPrefix(Unscripted(name), removes);
    RemovedIsPrefix(Whole(name), removes);
    RemovedIsPrefix(Abandoned(name), removes);
    hide Removed;
    forall o | o in Unscripted(name) || o in Whole(name) || o in Abandoned(name) ensures o.name == name {}
  }

  lemma RemovedHere(cs: seq<Entry>, c: ComponentSpec, found: Answers)
    ensures forall o | o in After(cs, c, found(c.name)).removed :: o.name == c.name && Safe(o, cs, found)
  {
    RemovedAreOf(c.name, found(c.name).removes);
    hide Get, Wrap32, RecordFailure, Removed, AllRemoved, Unscripted, Whole, Abandoned;
  }

  /** The deprovision Job of this name just failed for the last time. */
  predicate LastDeprovision(cs: seq<Entry>, found: Answers, name: string) {
    found(name).job.JobFailed? && Wrap32(Get(cs, name).retries + 1) >= MAX_DEPLOY_RETRIES
  }

  /** While the loop goes on, an entry is as it was, or its Job failed for the last time; or it
      does not matter, as nothing of its allocation waits for a Job. */
  ghost predicate AsBefore(now: seq<Entry>, cs: seq<Entry>, found: Answers) {
    forall n :: Get(now, n) == Get(cs, n) || LastDeprovision(cs, found, n)
  }

  lemma SettledAsBefore(c: ComponentSpec, now: seq<Entry>, cs: seq<Entry>, found: Answers)
    requires AsBefore(now, cs, found) && Settled(c, Get(now, c.name), found(c.name))
    ensures Settled(c, Get(cs, c.name), found(c.name))
  {
    hide Get, Wrap32, AllRemoved;
    assert Get(now, c.name) == Get(cs, c.name) || LastDeprovision(cs, found, c.name);
  }

  lemma SafeAsBefore(o: Object, now: seq<Entry>, cs: seq<Entry>, found: Answers)
    requires AsBefore(now, cs, found) && Safe(o, now, found)
    ensures Safe(o, cs, found)
  {
    hide Get, Wrap32;
    assert Get(now, o.name) == Get(cs, o.name) || LastDeprovision(cs, found, o.name);
  }

  lemma AfterIsAsBefore(c: ComponentSpec, now: seq<Entry>, cs: seq<Entry>, found: Answers)
    requires AsBefore(now, cs, found) && After(now, c, found(c.name)).next.GoOn?
    ensures AsBefore(After(now, c, found(c.name)).components, cs, found)
  {
    var f := found(c.name);
    var later := After(now, c, f).components;
    AfterMeans(now, c, f);
    SettledAsBefore(c, now, cs, found);
    if Get(later, c.name) != Get(now, c.name) { OnlyLastTryRecords(now, c, f); }
    hide Get, Wrap32, AllRemoved, After, Settled, Removed;
    forall n ensures Get(later, n) == Get(cs, n) || LastDeprovision(cs, found, n) {
      assert Get(now, n) == Get(cs, n) || LastDeprovision(cs, found, n);
    }
  }

  /** Going on with a changed entry takes a last failure. */
  lemma OnlyLastTryRecords(cs: seq<Entry>, c: ComponentSpec, f: Calls)
    requires After(cs, c, f).next.GoOn? && Get(After(cs, c, f).components, c.name) != Get(cs, c.name)
    ensures f.job.JobFailed? && Wrap32(Get(cs, c.name).retries + 1) >= MAX_DEPLOY_RETRIES
  {
    hide Get, Wrap32, RecordFailure, Removed, AllRemoved;
  }

  lemma {:induction false} DoneIsSettled(now: seq<Entry>, components: seq<ComponentSpec>, cs: seq<Entry>,
          found: Answers)
    requires AsBefore(now, cs, found)
    ensures var t := DeprovisionAll(now, components, found);
      && (t.verdict == Done ==> AllSettled(components, cs, found))
      && (forall o | o in t.removed :: Safe(o, cs, found))
    decreases |components|
  {
    hide Get, Settled, After, AsBefore, Safe;
    if components != [] {
      var c, rest := components[0], components[1..];
      assert components == [c] + rest;
      var step := After(now, c, found(c.name));
      AfterMeans(now, c, found(c.name));
      RemovedHere(now, c, found);
      forall o | o in step.removed ensures Safe(o, cs, found) { SafeAsBefore(o, now, cs, found); }
      if step.next.GoOn? {
        SettledAsBefore(c, now, cs, found);
        AfterIsAsBefore(c, now, cs, found);
        DoneIsSettled(step.components, rest, cs, found);
      }
    }
  }

  lemma SameEntriesSettled(components: seq<ComponentSpec>, cs: seq<Entry>, cs': seq<Entry>, found: Answers)
    requires forall c | c in components :: Get(cs', c.name) == Get(cs, c.name)
    ensures AllSettled(components, cs', found) <==> AllSettled(components, cs, found)
  {
    hide Get, Settled;
  }

  /** With unique names deprovisionShared is done exactly when every allocation is settled; it
      submits one deprovisioning at most, and only after all components before it are settled. */
  lemma {:induction false} DeprovisionMeans(cs: seq<Entry>, components: seq<ComponentSpec>, found: Answers)
    returns (k: nat)
    requires UniqueNames(components)
    ensures var t := DeprovisionAll(cs, components, found);
      && (t.verdict == Done <==> AllSettled(components, cs, found))
      && k <= |components| && AllSettled(components[..k], cs, found)
      && (t.submitted != [] ==> k < |components| && t.submitted == [components[k]] && IsShared(components[k]))
    decreases |components|
  {
    hide Get, Settled, After, UniqueNames;
    k := 0;
    if components != [] {
      var c, rest := components[0], components[1..];
      var step := After(cs, c, found(c.name));
      AfterMeans(cs, c, found(c.name));
      FirstApart(components);
      assert components == [c] + rest;
      if step.next.GoOn? {
        k := DeprovisionMeans(step.components, rest, found);
        SameEntriesSettled(rest, cs, step.components, found);
        SameEntriesSettled(rest[..k], cs, step.components, found);
        k := k + 1;
        assert components[..k] == [c] + rest[..k - 1];
      }
    }
  }

  /** For every template, duplicate names or not: done means that every allocation is settled, and
      whatever was deleted was at rest, and finished with if it had a script. */
  lemma DoneMeansAllSettled(components: seq<ComponentSpec>, cs: seq<Entry>, found: Answers)
    ensures var t := DeprovisionAll(cs, components, found);
      && (t.verdict == Done ==> AllSettled(components, cs, found))
      && (forall o | o in t.removed :: Safe(o, cs, found))
  {
    hide Get, Settled, After, Safe;
    assert AsBefore(cs, cs, found);
    DoneIsSettled(cs, components, cs, found);
  }
}
