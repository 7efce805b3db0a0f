/** Which objects deprovisionShared takes away, and whose deprovisioning it submits. */
module DeprovisionObjects {
  import opened Wrappers
  import opened Template
  import opened DependencyGraph
  import opened ComponentStatus
  import D = Deploy
  import opened DeployMoves
  import opened Undeploy
  import opened Deprovision
  import UP = UndeployProgress

  // ---- the objects of one component ----------------------------------------------------------------

  /** The objects that a finished deprovisioning leaves to be deleted: the credentials and the binding
      always, the provision Job unless the script was given up, its own Job when it succeeded. */
  predicate Due(o: Object, f: Calls) {
    match o
    case Credentials(_) => true
    case Binding(_) => true
    case ProvisionJob(_) => !f.scripted || f.job.JobSucceeded?
    case DeprovisionJob(_) => f.scripted && f.job.JobSucceeded?
  }

  /** They are deleted in this order, the binding last: it holds the secret that the next pass needs. */
  function Place(o: Object): nat {
    match o
    case ProvisionJob(_) => 0
    case DeprovisionJob(_) => 1
    case Credentials(_) => 2
    case Binding(_) => 3
  }

  /** The allocation is there and nothing is at work on it. */
  predicate Idle(c: ComponentSpec, f: Calls) {
    D.IsShared(c) && f.component.Present? && f.provider.Present? && (f.provision.NoJob? || f.provision.JobEnded?)
  }

  /** What the deprovision Job is asked with could be put together. */
  predicate Asked(c: ComponentSpec, f: Calls) {
    Idle(c, f) && f.scripted && f.binding.Present? && f.credentials && f.instance && f.renders
  }

  predicate LastOne(e: Entry, f: Calls) {
    f.job.JobFailed? && Wrap32(e.retries + 1) >= MAX_DEPLOY_RETRIES
  }

  /** It comes to deletions. */
  predicate Clears(c: ComponentSpec, e: Entry, f: Calls) {
    (Idle(c, f) && !f.scripted) || (Asked(c, f) && (f.job.JobSucceeded? || LastOne(e, f)))
  }

  /** The object is deleted: it is due, and no deletion before it failed. */
  ghost predicate Yields(o: Object, c: ComponentSpec, e: Entry, f: Calls) {
    && Clears(c, e, f) && o.name == c.name && Due(o, f)
    && forall p: Object | p.name == c.name && Due(p, f) && Place(p) <= Place(o) :: f.removes(p)
  }

  /** Its deprovisioning is submitted: the Job is not there, or failed with a retry left. */
  predicate Submits(c: ComponentSpec, e: Entry, f: Calls) {
    Asked(c, f) && (f.job.JobPending? || (f.job.JobFailed? && !LastOne(e, f)))
  }

  /** Something is at work on the allocation, or was just asked to be. */
  predicate AtWork(c: ComponentSpec, e: Entry, f: Calls) {
    && D.IsShared(c) && f.component.Present? && f.provider.Present?
    && (f.provision.JobDeleting? || f.provision.JobAtWork?
        || (Asked(c, f) && f.job.JobRunning?) || (Submits(c, e, f) && f.accepted))
  }

  /** What the look at its Job leaves on record. */
  function Noted(c: ComponentSpec, e: Entry, f: Calls): Entry {
    if Asked(c, f) && f.job.JobFailed? then
      e.(retries := Wrap32(e.retries + 1), phase := Pending, since := None, reason := DEPROVISION + f.job.reason)
    else e
  }

  /** Removed, element by element. */
  lemma {:induction false} RemovedUpTo(objects: seq<Object>, removes: Object -> bool, o: Object)
    ensures o in Removed(objects, removes) <==>
            exists i :: 0 <= i < |objects| && objects[i] == o && forall j | 0 <= j <= i :: removes(objects[j])
    decreases |objects|
  {
    if objects != [] {
      var rest := objects[1..];
      RemovedUpTo(rest, removes, o);
      if i :| 0 <= i < |rest| && rest[i] == o && forall j | 0 <= j <= i :: removes(rest[j]) {
        if removes(objects[0]) {
          assert objects[i + 1] == o;
          forall j | 0 <= j <= i + 1 ensures removes(objects[j]) { if j > 0 { assert objects[j] == rest[j - 1]; } }
        }
      }
      if i :| 0 <= i < |objects| && objects[i] == o && forall j | 0 <= j <= i :: removes(objects[j]) {
        if i > 0 {
          assert rest[i - 1] == o;
          forall j | 0 <= j <= i - 1 ensures removes(rest[j]) { assert rest[j] == objects[j + 1]; }
        }
      }
    }
  }

  /** What it is to be one of these. */
  lemma ListsAreDue(name: string, f: Calls, o: Object)
    ensures var objects := Leftovers(name, f); o in objects <==> o.name == name && Due(o, f)
    ensures var objects := Leftovers(name, f);
      forall i, j | 0 <= i < |objects| && 0 <= j < |objects| :: j <= i <==> Place(objects[j]) <= Place(objects[i])
  {
  }

  lemma LeftoversYield(c: ComponentSpec, e: Entry, f: Calls, o: Object)
    requires Clears(c, e, f)
    ensures o in Removed(Leftovers(c.name, f), f.removes) <==> Yields(o, c, e, f)
  {
    hide Leftovers, Clears, Due, Place, Removed;
    var objects := Leftovers(c.name, f);
    RemovedUpTo(objects, f.removes, o);
    forall p ensures p in objects <==> p.name == c.name && Due(p, f) {
      ListsAreDue(c.name, f, p);
    }
    ListsAreDue(c.name, f, o);
    if o in objects {
      var i :| 0 <= i < |objects| && objects[i] == o;
      assert Yields(o, c, e, f) <==> forall j | 0 <= j <= i :: f.removes(objects[j]) by {
        YieldsByIndex(objects, c, e, f, i);
      }
      OnlyOnce(objects, i);
    }
  }

  lemma OnlyOnce(objects: seq<Object>, i: nat)
    requires i < |objects|
    requires forall i, j | 0 <= i < |objects| && 0 <= j < |objects| ::
               j <= i <==> Place(objects[j]) <= Place(objects[i])
    ensures forall j | 0 <= j < |objects| && objects[j] == objects[i] :: j == i
  {
    hide Place;
  }

  lemma YieldsByIndex(objects: seq<Object>, c: ComponentSpec, e: Entry, f: Calls, i: nat)
    requires Clears(c, e, f) && i < |objects|
    requires forall p :: p in objects <==> p.name == c.name && Due(p, f)
    requires forall i, j | 0 <= i < |objects| && 0 <= j < |objects| ::
               j <= i <==> Place(objects[j]) <= Place(objects[i])
    ensures Yields(objects[i], c, e, f) <==> forall j | 0 <= j <= i :: f.removes(objects[j])
  {
    hide Clears, Due, Place;
    assert objects[i] in objects;
    if Yields(objects[i], c, e, f) {
      forall j | 0 <= j <= i ensures f.removes(objects[j]) { assert objects[j] in objects; }
    }
    if forall j | 0 <= j <= i :: f.removes(objects[j]) {
      forall p: Object | p.name == c.name && Due(p, f) && Place(p) <= Place(objects[i]) ensures f.removes(p) {
        assert p in objects;
        var j :| 0 <= j < |objects| && objects[j] == p;
      }
    }
  }

  // ---- one component ------------------------------------------------------------------------------------

  lemma StepRemoves(cs: seq<Entry>, c: ComponentSpec, f: Calls, o: Object)
    ensures o in After(cs, c, f).removed <==> Yields(o, c, Get(cs, c.name), f)
  {
    hide Get, Wrap32, RecordFailure, Removed, AllRemoved, Unscripted, Whole, Abandoned, Due, Place;
    if Clears(c, Get(cs, c.name), f) { LeftoversYield(c, Get(cs, c.name), f, o); }
  }

  /** A component stops the pass exactly unless it is settled, which takes that every object due could
      be deleted. */
  lemma StepGoesOn(cs: seq<Entry>, c: ComponentSpec, f: Calls)
    ensures var e, next := Get(cs, c.name), After(cs, c, f).next;
      && (next.GoOn? <==>
            || !D.IsShared(c) || f.component.Absent? || (f.component.Present? && f.provider.Absent?)
            || (Idle(c, f) && f.scripted && f.binding.Absent?)
            || (Clears(c, e, f) && forall o: Object | o.name == c.name && Due(o, f) :: f.removes(o)))
      && (next.Stop? ==>
            && (next.submitted <==> Submits(c, e, f))
            && next.verdict == if AtWork(c, e, f) then Waiting else Broken)
  {
    hide Get, Wrap32, RecordFailure, Removed, AllRemoved, Unscripted, Whole, Abandoned, Due;
    if Clears(c, Get(cs, c.name), f) { AllLeftovers(c.name, f); }
  }

  lemma AllLeftovers(name: string, f: Calls)
    ensures AllRemoved(Leftovers(name, f), f.removes) <==>
            forall o: Object | o.name == name && Due(o, f) :: f.removes(o)
  {
    hide Leftovers, Due;
    forall o: Object ensures o in Leftovers(name, f) <==> o.name == name && Due(o, f) { ListsAreDue(name, f, o); }
  }

  lemma StepNotes(cs: seq<Entry>, c: ComponentSpec, f: Calls)
    ensures var after := After(cs, c, f).components;
      && Get(after, c.name) == Noted(c, Get(cs, c.name), f)
      && forall n | n != c.name :: Get(after, n) == Get(cs, n)
  {
    hide Get, Wrap32, RecordFailure, Removed, AllRemoved;
    if f.job.JobFailed? { UP.FailureNotes(cs, c.name, DEPROVISION + f.job.reason); }
  }

  // ---- a pass --------------------------------------------------------------------------------------------

  predicate SettledAt(cs: seq<Entry>, c: ComponentSpec, found: Answers) {
    Settled(c, Get(cs, c.name), found(c.name))
  }

  ghost predicate YieldsAt(o: Object, cs: seq<Entry>, c: ComponentSpec, found: Answers) {
    Yields(o, c, Get(cs, c.name), found(c.name))
  }

  predicate NotedAt(cs: seq<Entry>, cs': seq<Entry>, c: ComponentSpec, found: Answers) {
    Get(cs', c.name) == Noted(c, Get(cs, c.name), found(c.name))
  }

  /** What a pass does that finds the first k components settled, and the next not, if there is one: it
      deletes what those k + 1 yield, and no more; it takes note of their failures; it submits the
      deprovisioning of that next one exactly when it is asked for. */
  ghost predicate Does(k: nat, t: Pass, cs: seq<Entry>, components: seq<ComponentSpec>, found: Answers) {
    && k <= |components|
    && (forall i | 0 <= i < k :: SettledAt(cs, components[i], found))
    && (k < |components| ==> !SettledAt(cs, components[k], found))
    && (forall o: Object ::
          o in t.removed <==> exists i :: 0 <= i <= k && i < |components| && YieldsAt(o, cs, components[i], found))
    && (forall i | 0 <= i <= k && i < |components| :: NotedAt(cs, t.components, components[i], found))
    && (forall i | k < i < |components| :: Get(t.components, components[i].name) == Get(cs, components[i].name))
    && (if k == |components| then t.verdict == Done && t.submitted == []
        else
          var c := components[k];
          var e, f := Get(cs, c.name), found(c.name);
          && t.submitted == (if Submits(c, e, f) then [c] else [])
          && t.verdict == if AtWork(c, e, f) then Waiting else Broken)
  }

  lemma NothingToDo(cs: seq<Entry>, found: Answers)
    ensures Does(0, DeprovisionAll(cs, [], found), cs, [], found)
  {
    hide Get, SettledAt, YieldsAt, NotedAt;
  }

  lemma StopsFirst(cs: seq<Entry>, components: seq<ComponentSpec>, found: Answers)
    requires UniqueNames(components) && components != []
    requires After(cs, components[0], found(components[0].name)).next.Stop?
    ensures Does(0, DeprovisionAll(cs, components, found), cs, components, found)
  {
    hide Get, After, Yields, Noted, Settled, Submits, AtWork, Clears, Idle, Due;
    var c := components[0];
    AfterMeans(cs, c, found(c.name));
    StepGoesOn(cs, c, found(c.name));
    StepNotes(cs, c, found(c.name));
    forall o: Object ensures o in After(cs, c, found(c.name)).removed <==> YieldsAt(o, cs, c, found) {
      StepRemoves(cs, c, found(c.name), o);
    }
  }

  lemma FirstThenRest(k: nat, cs: seq<Entry>, components: seq<ComponentSpec>, found: Answers)
    requires UniqueNames(components) && components != []
    requires var step := After(cs, components[0], found(components[0].name));
      && step.next.GoOn?
      && Does(k, DeprovisionAll(step.components, components[1..], found), step.components, components[1..], found)
    ensures Does(k + 1, DeprovisionAll(cs, components, found), cs, components, found)
  {
    hide Get, After, Yields, Noted, Settled, Submits, AtWork, UniqueNames, Names;
    var c, rest := components[0], components[1..];
    var step := After(cs, c, found(c.name));
    var u := DeprovisionAll(step.components, rest, found);
    var t := DeprovisionAll(cs, components, found);
    AfterMeans(cs, c, found(c.name));
    StepNotes(cs, c, found(c.name));
    FirstApart(components);
    assert forall i | 0 < i < |components| :: components[i] == rest[i - 1];
    forall i | 0 < i < |components| ensures Get(step.components, components[i].name) == Get(cs, components[i].name) {
      assert rest[i - 1] in rest;
    }
    forall i | 0 <= i < k + 1 ensures SettledAt(cs, components[i], found) {
      if i > 0 { assert SettledAt(step.components, rest[i - 1], found); }
    }
    RestTouches(step.components, rest, found, c.name);
    forall i | 0 <= i <= k + 1 && i < |components| ensures NotedAt(cs, t.components, components[i], found) {
      if i > 0 { assert NotedAt(step.components, t.components, rest[i - 1], found); }
    }
    forall i | k + 1 < i < |components|
      ensures Get(t.components, components[i].name) == Get(cs, components[i].name)
    {
      assert Get(t.components, rest[i - 1].name) == Get(step.components, rest[i - 1].name);
    }
    forall o: Object ensures o in t.removed <==>
        exists i :: 0 <= i <= k + 1 && i < |components| && YieldsAt(o, cs, components[i], found)
    {
      StepRemoves(cs, c, found(c.name), o);
      if i :| 0 <= i <= k && i < |rest| && YieldsAt(o, step.components, rest[i], found) {
        assert YieldsAt(o, cs, components[i + 1], found);
      }
      if i :| 0 <= i <= k + 1 && i < |components| && YieldsAt(o, cs, components[i], found) {
        if i > 0 { assert YieldsAt(o, step.components, rest[i - 1], found); }
      }
    }
  }

  /** The pass leaves the entries of other names. */
  lemma {:induction false} RestTouches(cs: seq<Entry>, components: seq<ComponentSpec>, found: Answers, n: string)
    requires forall c | c in components :: c.name != n
    ensures Get(DeprovisionAll(cs, components, found).components, n) == Get(cs, n)
    decreases |components|
  {
    hide Get, After;
    if components != [] {
      var c := components[0];
      AfterMeans(cs, c, found(c.name));
      RestTouches(After(cs, c, found(c.name)).components, components[1..], found, n);
    }
  }

  /** Every pass does what the components ask for, up to the first that is not settled. */
  lemma {:induction false} PassDoes(cs: seq<Entry>, components: seq<ComponentSpec>, found: Answers) returns (k: nat)
    requires UniqueNames(components)
    ensures Does(k, DeprovisionAll(cs, components, found), cs, components, found)
    decreases |components|
  {
    hide Get, After, UniqueNames, Does, DeprovisionAll;
    if components == [] {
      k := 0;
      NothingToDo(cs, found);
    } else {
      var step := After(cs, components[0], found(components[0].name));
      FirstApart(components);
      if step.next.GoOn? {
        k := PassDoes(step.components, components[1..], found);
        FirstThenRest(k, cs, components, found);
        k := k + 1;
      } else {
        k := 0;
        StopsFirst(cs, components, found);
      }
    }
  }

  // ---- for every template -------------------------------------------------------------------------------

  /** The allocation of the component holds the object and is to be given back: it is at rest, and with
      a script its binding is there. */
  predicate Holds(c: ComponentSpec, f: Calls, o: Object) {
    Idle(c, f) && o.name == c.name && Due(o, f) && (f.scripted ==> f.binding.Present?)
  }

  ghost predicate HeldBySome(components: seq<ComponentSpec>, found: Answers, o: Object) {
    exists c | c in components :: Holds(c, found(c.name), o)
  }

  lemma StepTakesAll(cs: seq<Entry>, c: ComponentSpec, f: Calls, o: Object)
    ensures o in Deprovision.After(cs, c, f).removed ==> Holds(c, f, o)
    ensures Deprovision.After(cs, c, f).next.GoOn? && Holds(c, f, o) ==> o in Deprovision.After(cs, c, f).removed
    ensures Binding(o.name) in Deprovision.After(cs, c, f).removed && Due(o, f) ==>
              o in Deprovision.After(cs, c, f).removed
  {
    StepRemoves(cs, c, f, o);
    StepRemoves(cs, c, f, Binding(o.name));
    StepGoesOn(cs, c, f);
    hide Get, Deprovision.After, Wrap32;
  }

  /** Whatever the names in the template: what a pass deletes is held by an allocation that is to be
      given back; a pass that is done has deleted all of it; and a binding is deleted last, after
      everything else that is due of its allocation. */
  lemma {:induction false} DoneTakesAll(cs: seq<Entry>, components: seq<ComponentSpec>, found: Answers, o: Object)
    ensures var t := DeprovisionAll(cs, components, found);
      && (o in t.removed ==> HeldBySome(components, found, o))
      && (t.verdict == Done ==> (o in t.removed <==> HeldBySome(components, found, o)))
      && (Binding(o.name) in t.removed && Due(o, found(o.name)) ==> o in t.removed)
    decreases |components|
  {
    hide Get, Deprovision.After, Holds, Due;
    if components != [] {
      var c, rest := components[0], components[1..];
      var step := Deprovision.After(cs, c, found(c.name));
      assert components == [c] + rest;
      AfterMeans(cs, c, found(c.name));
      StepTakesAll(cs, c, found(c.name), o);
      if Binding(o.name) in step.removed { StepNames(cs, c, found(c.name), Binding(o.name)); }
      if step.next.GoOn? { DoneTakesAll(step.components, rest, found, o); }
    }
  }

  lemma StepNames(cs: seq<Entry>, c: ComponentSpec, f: Calls, o: Object)
    requires o in Deprovision.After(cs, c, f).removed
    ensures o.name == c.name
  {
    StepRemoves(cs, c, f, o);
  }
}
