/**
  A pass component by component. However the loops share one list, each component moves on
  its own, and only as a small table allows.
 */
module DeployMoves {
  import opened Wrappers
  import opened Template
  import opened ComponentStatus
  import E = Environment
  import opened Deploy

  function Blamed(e: Entry, reason: string): Entry {
    var retries := Wrap32(e.retries + 1);
    var phase := if retries >= MAX_DEPLOY_RETRIES then Failed else Pending;
    e.(retries := retries, phase := phase, since := None, reason := reason)
  }

  function Cleared(e: Entry): Entry {
    e.(phase := Ready, retries := 0, reason := "")
  }

  /** What the calls for one component do to its entry alone. */
  function Move(w: Work, e: Entry, c: ComponentSpec, a: Answer, timeout: Limit): Entry {
    match w
    case Nothing => e
    case Adoption =>
      if !IsShared(c) || !a.submitted.Accepted? then e
      else if a.submitted.atOnce then Cleared(e).(shared := true)
      else e.(phase := Submitting, shared := true)
    case Submission =>
      (match a.submitted
       case Accepted(_) => if IsShared(c) then e else e.(phase := Submitting)
       case NotReadyYet => e
       case AtCapacity => if IsShared(c) then e.(phase := Failed) else Blamed(e, "shared component at capacity")
       case Refused(reason) => Blamed(e, reason))
    case Observation =>
      (match a.observed
       case JobPending => e.(phase := Pending)
       case JobRunning => e
       case JobSucceeded =>
         if IsShared(c) then Cleared(e)
         else e.(phase := Deploying, since := if e.since.None? then Some(a.now) else e.since)
       case JobFailed(reason) => Blamed(e, if IsShared(c) then "provision: " + reason else reason)
       case ObserveError => e)
    case Check =>
      if Overdue(e, a.now, timeout) then Blamed(e, TIMED_OUT + timeout.text)
      else if a.checked.IsReady? then Cleared(e)
      else e
  }

  // ---- the list operations on one name --------------------------------------------

  /** cs' differs from cs at `name` only, where it has e. */
  ghost predicate Rewrites(cs: seq<Entry>, cs': seq<Entry>, name: string, e: Entry) {
    && (cs' == cs || Has(cs', name))
    && Get(cs', name) == e
    && (forall n | n != name :: Get(cs', n) == Get(cs, n) && (Has(cs', n) <==> Has(cs, n)))
    && (Has(cs, name) ==> Has(cs', name))
    && (UniqueEntries(cs) ==> UniqueEntries(cs'))
  }

  lemma PutRewrites(cs: seq<Entry>, e: Entry)
    ensures Rewrites(cs, Put(cs, e), e.name, e) && Has(Put(cs, e), e.name)
  {
    forall n ensures Get(Put(cs, e), n) == (if n == e.name then e else Get(cs, n))
      ensures Has(Put(cs, e), n) <==> n == e.name || Has(cs, n)
      ensures UniqueEntries(cs) ==> UniqueEntries(Put(cs, e))
    {
      PutIsUpdate(cs, e, n);
    }
  }

  lemma RewritesCompose(a: seq<Entry>, b: seq<Entry>, c: seq<Entry>, name: string, e: Entry, f: Entry)
    requires Rewrites(a, b, name, e) && Rewrites(b, c, name, f)
    ensures Rewrites(a, c, name, f)
  {
    hide Get, Has, UniqueEntries;
  }

  lemma PhaseRewrites(cs: seq<Entry>, name: string, phase: ComponentPhase)
    ensures Rewrites(cs, SetPhase(cs, name, phase), name, Get(cs, name).(phase := phase))
    ensures Has(SetPhase(cs, name, phase), name)
  {
    hide Rewrites;
    PutRewrites(cs, Get(cs, name).(phase := phase));
  }

  lemma GetName(cs: seq<Entry>, name: string)
    ensures Get(cs, name).name == name
  {
  }

  lemma RecordRewrites(cs: seq<Entry>, name: string, reason: string)
    ensures var e := Get(cs, name);
      Rewrites(cs, RecordFailure(cs, name, reason), name,
               e.(retries := Wrap32(e.retries + 1), phase := Pending, since := None, reason := reason))
  {
    hide Rewrites, Wrap32, Get, Put;
    GetName(cs, name);
    var e := Get(cs, name);
    PutRewrites(cs, e.(retries := Wrap32(e.retries + 1), phase := Pending, since := None, reason := reason));
  }

  lemma RewritesGet(cs: seq<Entry>, cs': seq<Entry>, name: string, e: Entry)
    requires Rewrites(cs, cs', name, e)
    ensures Get(cs', name) == e
  {
  }

  lemma StruckRewrites(cs: seq<Entry>, name: string, reason: string)
    ensures Rewrites(cs, Struck(cs, name, reason), name, Blamed(Get(cs, name), reason))
  {
    hide Rewrites, Wrap32, Get, RecordFailure, SetPhase;
    var e, after := Get(cs, name), RecordFailure(cs, name, reason);
    var f := e.(retries := Wrap32(e.retries + 1), phase := Pending, since := None, reason := reason);
    RecordRewrites(cs, name, reason);
    RewritesGet(cs, after, name, f);
    PhaseRewrites(after, name, Failed);
    RewritesCompose(cs, after, SetPhase(after, name, Failed), name, f, f.(phase := Failed));
  }

  lemma PhaseThen(cs: seq<Entry>, name: string, phase: ComponentPhase, f: Entry)
    requires f.name == name
    ensures var mid := SetPhase(cs, name, phase);
      && Get(mid, name) == Get(cs, name).(phase := phase) && Has(mid, name)
      && Rewrites(cs, Put(mid, f), name, f)
  {
    var mid := SetPhase(cs, name, phase);
    PhaseRewrites(cs, name, phase);
    PutRewrites(mid, f);
    assert Get(mid, name) == Get(cs, name).(phase := phase);
    hide Rewrites;
    RewritesCompose(cs, mid, Put(mid, f), name, Get(mid, name), f);
  }

  lemma AdoptedRewrites(cs: seq<Entry>, c: ComponentSpec, a: Answer)
    ensures Rewrites(cs, Adopted(cs, c, a.submitted), c.name, Move(Adoption, Get(cs, c.name), c, a, NO_LIMIT))
  {
    if IsShared(c) && a.submitted.Accepted? {
      var phase := if a.submitted.atOnce then Ready else Submitting;
      var e := Get(cs, c.name).(phase := phase, shared := true);
      PhaseThen(cs, c.name, phase, e);
      var mid := Put(SetPhase(cs, c.name, phase), e);
      var f := e.(retries := 0, reason := "");
      PutRewrites(SetPhase(cs, c.name, phase), e);
      PutRewrites(mid, f);
      assert Get(mid, c.name) == e;
      hide Rewrites;
      if a.submitted.atOnce { RewritesCompose(cs, mid, Put(mid, f), c.name, e, f); }
    }
  }

  lemma ClearedRewrites(cs: seq<Entry>, name: string)
    ensures Rewrites(cs, ResetFailure(SetPhase(cs, name, Ready), name), name, Cleared(Get(cs, name)))
  {
    PhaseThen(cs, name, Ready, Cleared(Get(cs, name)));
  }

  lemma StartedRewrites(cs: seq<Entry>, name: string, now: int)
    ensures var e := Get(cs, name);
      Rewrites(cs, SetSince(SetPhase(cs, name, Deploying), name, now), name,
               e.(phase := Deploying, since := if e.since.None? then Some(now) else e.since))
  {
    PhaseThen(cs, name, Deploying, Get(cs, name).(phase := Deploying, since := Some(now)));
    PhaseRewrites(cs, name, Deploying);
  }

  lemma SameRewrites(cs: seq<Entry>, name: string)
    ensures Rewrites(cs, cs, name, Get(cs, name))
  {
  }

  lemma SubmissionIsMove(t: Tally, c: ComponentSpec, a: Answer)
    ensures var cs := t.status.components;
      Rewrites(cs, AfterSubmit(t, c, a.submitted).status.components, c.name,
               Move(Submission, Get(cs, c.name), c, a, NO_LIMIT))
  {
    hide Rewrites, Get, SetPhase, Struck, Blamed, Exhausts;
    var cs := t.status.components;
    match a.submitted {
      case Accepted(_) => if IsShared(c) { SameRewrites(cs, c.name); } else { PhaseRewrites(cs, c.name, Submitting); }
      case NotReadyYet => SameRewrites(cs, c.name);
      case AtCapacity =>
        PhaseRewrites(cs, c.name, Failed);
        StruckRewrites(cs, c.name, "shared component at capacity");
      case Refused(reason) => StruckRewrites(cs, c.name, reason);
    }
  }

  lemma ObservationIsMove(t: Tally, c: ComponentSpec, a: Answer)
    ensures var cs := t.status.components;
      Rewrites(cs, Step(Observation, t, c, a, NO_LIMIT).status.components, c.name,
               Move(Observation, Get(cs, c.name), c, a, NO_LIMIT))
  {
    hide Rewrites, Get, SetPhase, Struck, Blamed, Exhausts, ResetFailure, SetSince, Cleared;
    var cs := t.status.components;
    match a.observed {
      case JobPending => PhaseRewrites(cs, c.name, Pending);
      case JobRunning => SameRewrites(cs, c.name);
      case JobSucceeded => if IsShared(c) { ClearedRewrites(cs, c.name); } else { StartedRewrites(cs, c.name, a.now); }
      case JobFailed(reason) => StruckRewrites(cs, c.name, if IsShared(c) then "provision: " + reason else reason);
      case ObserveError => SameRewrites(cs, c.name);
    }
  }

  lemma CheckIsMove(t: Tally, c: ComponentSpec, a: Answer, timeout: Limit)
    ensures var cs := t.status.components;
      Rewrites(cs, AfterCheck(t, c, a.checked, a.now, timeout).status.components, c.name,
               Move(Check, Get(cs, c.name), c, a, timeout))
  {
    hide Rewrites, Get, SetPhase, Struck, Blamed, Exhausts, ResetFailure, Cleared;
    var cs := t.status.components;
    if Overdue(Get(cs, c.name), a.now, timeout) {
      StruckRewrites(cs, c.name, TIMED_OUT + timeout.text);
    } else if a.checked.IsReady? {
      ClearedRewrites(cs, c.name);
    } else {
      SameRewrites(cs, c.name);
    }
  }

  /** A step of a loop is the move of one component. */
  lemma StepIsMove(w: Work, t: Tally, c: ComponentSpec, a: Answer, timeout: Limit)
    ensures var cs := t.status.components;
      Rewrites(cs, Step(w, t, c, a, timeout).status.components, c.name, Move(w, Get(cs, c.name), c, a, timeout))
  {
    hide Rewrites, Get, Adopted, AfterSubmit, AfterCheck, AfterObserve, AfterObserveShared, Blamed, Cleared, Overdue;
    match w {
      case Nothing => SameRewrites(t.status.components, c.name);
      case Adoption => AdoptedRewrites(t.status.components, c, a);
      case Submission => SubmissionIsMove(t, c, a);
      case Observation => ObservationIsMove(t, c, a);
      case Check => CheckIsMove(t, c, a, timeout);
    }
  }

  // ---- the table --------------------------------------------------------------------

  /** One more retry, and a full timeout for it; the fifth is the end. */
  predicate Retried(e: Entry, f: Entry) {
    && f.retries == e.retries + 1 && f.since.None?
    && f.phase == (if f.retries == MAX_DEPLOY_RETRIES then Failed else Pending)
  }

  predicate Reached(e: Entry, f: Entry) {
    f.phase == Ready && f.retries == 0 && f.since == e.since
  }

  /** The moves there are, for a component that is answered at time now. */
  predicate Lawful(e: Entry, f: Entry, now: int, timeout: Limit) {
    f.name == e.name && (f == e || match e.phase
      case Ready => false
      case Failed => false
      case Pending =>
        Reached(e, f) || Retried(e, f) || (f.phase in {Submitting, Failed} && f.retries == e.retries && f.since.None?)
      case Submitting =>
        Reached(e, f) || Retried(e, f) || (f.retries == e.retries && if f.phase == Pending then f.since.None?
                                           else f.phase == Deploying && f.since == Some(now))
      case Deploying =>
        Reached(e, f) || (Retried(e, f) && Overdue(e, now, timeout)))
  }

  /** The phase a loop meets its components in. */
  predicate Fits(w: Work, e: Entry, c: ComponentSpec, a: Answer) {
    match w
    case Nothing => true
    case Adoption => e.phase == Pending
    case Submission => e.phase == Pending || (IsShared(c) && a.submitted.Accepted?)
    case Observation => e.phase == Submitting
    case Check => e.phase == Deploying
  }

  lemma MoveIsLawful(w: Work, e: Entry, c: ComponentSpec, a: Answer, timeout: Limit)
    requires Sound(e) && Fits(w, e, c, a)
    ensures Sound(Move(w, e, c, a, timeout)) && Lawful(e, Move(w, e, c, a, timeout), a.now, timeout)
  {
  }
}
