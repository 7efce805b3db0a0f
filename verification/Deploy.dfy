/**
  What one pass over a deployment level does to an environment's status. What the API
  server, the Jobs and the readiness checks answer is input to a pass.
 */
module Deploy {
  import opened Wrappers
  import opened Template
  import opened ComponentStatus
  import E = Environment
  import opened Backoff

  /** The answer to a submit; atOnce says that a shared component needs no provisioning. */
  datatype Submitted = Accepted(atOnce: bool) | NotReadyYet | AtCapacity | Refused(reason: string)

  datatype Observed = JobPending | JobRunning | JobSucceeded | JobFailed(reason: string) | ObserveError

  datatype Checked = IsReady | NotYet | CheckError

  /** What a component's calls are answered, whichever of them the pass makes, at time now. */
  datatype Answer = Answer(submitted: Submitted, observed: Observed, checked: Checked, now: int)

  type Replies = string -> Answer

  datatype Requeue = Never | After(wait: int)

  /** The result of a pass: an error goes to the caller, otherwise a requeue. */
  datatype Outcome = Returned(requeue: Requeue) | Errored

  /** The time readiness may take, and how it is written. */
  datatype Limit = Limit(value: int, text: string)

  /** For loops that time nothing. */
  const NO_LIMIT := Limit(0, "")

  predicate IsShared(c: ComponentSpec) {
    c.sharedRef != ""
  }

  // ---- partitionLevel -------------------------------------------------------------

  /** What a component is in for; Adoption is the first loop of submitDeploys. */
  datatype Work = Nothing | Adoption | Submission | Observation | Check

  function PhaseByName(cs: seq<Entry>): map<string, ComponentPhase> {
    if cs == [] then map[]
    else
      var last := cs[|cs| - 1];
      PhaseByName(cs[..|cs| - 1])[last.name := last.phase]
  }

  lemma {:induction false} PhaseByNameIsGet(cs: seq<Entry>, name: string)
    requires UniqueEntries(cs)
    ensures name in PhaseByName(cs) <==> Has(cs, name)
    ensures Has(cs, name) ==> PhaseByName(cs)[name] == Get(cs, name).phase
  {
    if cs != [] {
      var init, last := cs[..|cs| - 1], cs[|cs| - 1];
      PhaseByNameIsGet(init, name);
      if last.name == name {
        FindIs(cs, name, |cs| - 1);
      } else if Has(init, name) {
        FindIs(cs, name, Find(init, name));
      } else {
        assert forall i | 0 <= i < |cs| :: cs[i].name == name ==> i < |init| && init[i].name == name;
      }
    }
  }

  function WorkAt(phase: ComponentPhase): Work {
    match phase
    case Ready => Nothing
    case Failed => Nothing
    case Submitting => Observation
    case Deploying => Check
    case Pending => Submission
  }

  /** A component without a status is to be deployed. */
  function WorkOf(phases: map<string, ComponentPhase>, name: string): Work {
    if name !in phases then Submission else WorkAt(phases[name])
  }

  function Select(level: seq<ComponentSpec>, phases: map<string, ComponentPhase>, w: Work): seq<ComponentSpec> {
    if level == [] then []
    else (if WorkOf(phases, level[0].name) == w then [level[0]] else []) + Select(level[1..], phases, w)
  }

  lemma {:induction false} SelectAppend(a: seq<ComponentSpec>, b: seq<ComponentSpec>, phases: map<string,
        ComponentPhase>, w: Work)
    ensures Select(a + b, phases, w) == Select(a, phases, w) + Select(b, phases, w)
  {
    if a == [] {
      assert a + b == b;
    } else {
      assert (a + b)[1..] == a[1..] + b;
      SelectAppend(a[1..], b, phases, w);
    }
  }

  /** Select keeps exactly what the phase asks for. */
  lemma {:induction false} SelectIsExact(level: seq<ComponentSpec>, phases: map<string, ComponentPhase>, w: Work,
        c: ComponentSpec)
    ensures c in Select(level, phases, w) <==> c in level && WorkOf(phases, c.name) == w
  {
    if level != [] {
      SelectIsExact(level[1..], phases, w, c);
      assert level == [level[0]] + level[1..];
    }
  }

  method PartitionLevel(level: seq<ComponentSpec>, phases: map<string, ComponentPhase>)
    returns (needDeploy: seq<ComponentSpec>, submitting: seq<ComponentSpec>, needCheck: seq<ComponentSpec>)
    ensures needDeploy == Select(level, phases, Submission)
    ensures submitting == Select(level, phases, Observation)
    ensures needCheck == Select(level, phases, Check)
  {
    needDeploy, submitting, needCheck := [], [], [];
    for i := 0 to |level|
      invariant needDeploy == Select(level[..i], phases, Submission)
      invariant submitting == Select(level[..i], phases, Observation)
      invariant needCheck == Select(level[..i], phases, Check)
    {
      assert level[..i + 1] == level[..i] + [level[i]];
      SelectAppend(level[..i], [level[i]], phases, Submission);
      SelectAppend(level[..i], [level[i]], phases, Observation);
      SelectAppend(level[..i], [level[i]], phases, Check);
      var component := level[i];
      match WorkOf(phases, component.name) {
        case Nothing =>
        case Adoption =>
        case Observation => submitting := submitting + [component];
        case Check => needCheck := needCheck + [component];
        case Submission => needDeploy := needDeploy + [component];
      }
    }
    assert level[..|level|] == level;
  }

  // ---- the three loops --------------------------------------------------------------

  /** The state of a loop; over ends it early with a result. running: something is still to
      wait for. */
  datatype Tally = Tally(status: E.Status, exhausted: bool, retrying: bool, running: bool, over: Option<Outcome>)

  function Blank(s: E.Status): Tally {
    Tally(s, false, false, false, None)
  }

  function With(t: Tally, cs: seq<Entry>): Tally {
    t.(status := t.status.(components := cs))
  }

  function FailWith(s: E.Status, reason: string): E.Status {
    s.(phase := E.EnvPhase.Failed, reason := reason)
  }

  function Quit(t: Tally, reason: string): Tally {
    t.(status := FailWith(t.status, reason), over := Some(Returned(Never)))
  }

  /** Does one more failure use up the retries? */
  predicate Exhausts(cs: seq<Entry>, name: string) {
    Wrap32(Get(cs, name).retries + 1) >= MAX_DEPLOY_RETRIES
  }

  /** A failure on the record, and a failed component when it was the last one allowed. */
  function Struck(cs: seq<Entry>, name: string, reason: string): seq<Entry> {
    var after := RecordFailure(cs, name, reason);
    if Exhausts(cs, name) then SetPhase(after, name, Failed) else after
  }

  function Strike(t: Tally, name: string, reason: string): Tally {
    var u := With(t, Struck(t.status.components, name, reason));
    if Exhausts(t.status.components, name) then u.(exhausted := true) else u.(retrying := true)
  }

  /** submitDeploys, first loop: a shared component that was accepted. */
  function Adopted(cs: seq<Entry>, c: ComponentSpec, o: Submitted): seq<Entry> {
    if IsShared(c) && o.Accepted? then
      var shared := SetShared(SetPhase(cs, c.name, if o.atOnce then Ready else Submitting), c.name);
      if o.atOnce then ResetFailure(shared, c.name) else shared
    else cs
  }

  /** submitDeploys, second loop. */
  function AfterSubmit(t: Tally, c: ComponentSpec, o: Submitted): Tally {
    var cs := t.status.components;
    match o
    case Accepted(_) => if IsShared(c) then t else With(t, SetPhase(cs, c.name, Submitting))
    case NotReadyYet => t.(running := true)
    case AtCapacity =>
      if IsShared(c) then Quit(With(t, SetPhase(cs, c.name, Failed)), "SharedComponentAtCapacity")
      else Strike(t, c.name, "shared component at capacity")
    case Refused(reason) => Strike(t, c.name, reason)
  }

  /** observeShared. */
  function Watched(t: Tally, c: ComponentSpec, o: Observed): Tally {
    var cs := t.status.components;
    match o
    case JobPending => With(t, SetPhase(cs, c.name, Pending)).(running := true)
    case JobRunning => t.(running := true)
    case JobSucceeded => With(t, ResetFailure(SetPhase(cs, c.name, Ready), c.name))
    case JobFailed(reason) =>
      var u := With(t, Struck(cs, c.name, "provision: " + reason)).(running := true);
      if Exhausts(cs, c.name) then u.(status := FailWith(u.status, "ProvisionFailed")) else u
    case ObserveError => t.(over := Some(Errored))
  }

  /** The loop around it sees a retry by the count that has grown. */
  function AfterObserveShared(t: Tally, c: ComponentSpec, o: Observed): Tally {
    var u := Watched(t, c, o);
    if u.over.Some? then u
    else
      var raised := Get(u.status.components, c.name).retries > Get(t.status.components, c.name).retries;
      u.(retrying := t.retrying || raised)
  }

  function AfterObserve(t: Tally, c: ComponentSpec, o: Observed, now: int): Tally {
    var cs := t.status.components;
    match o
    case JobPending => With(t, SetPhase(cs, c.name, Pending)).(running := true)
    case JobRunning => t.(running := true)
    case JobSucceeded => With(t, SetSince(SetPhase(cs, c.name, Deploying), c.name, now))
    case JobFailed(reason) =>
      var u := Strike(t, c.name, reason);
      if Exhausts(cs, c.name) then Quit(u, "DeployFailed") else u
    case ObserveError => t.(over := Some(Errored))
  }

  const TIMED_OUT := "readiness timeout after "

  predicate Overdue(e: Entry, now: int, timeout: Limit) {
    e.since.Some? && now - e.since.value > timeout.value
  }

  function AfterCheck(t: Tally, c: ComponentSpec, o: Checked, now: int, timeout: Limit): Tally {
    var cs := t.status.components;
    if Overdue(Get(cs, c.name), now, timeout) then
      var u := Strike(t, c.name, TIMED_OUT + timeout.text);
      if Exhausts(cs, c.name) then Quit(u, "ReadinessTimeout") else u
    else match o
      case IsReady => With(t, ResetFailure(SetPhase(cs, c.name, Ready), c.name))
      case NotYet => t.(running := true)
      case CheckError => t.(over := Some(Errored))
  }

  function Step(w: Work, t: Tally, c: ComponentSpec, a: Answer, timeout: Limit): Tally {
    match w
    case Nothing => t
    case Adoption => With(t, Adopted(t.status.components, c, a.submitted))
    case Submission => AfterSubmit(t, c, a.submitted)
    case Observation =>
      if IsShared(c) then AfterObserveShared(t, c, a.observed) else AfterObserve(t, c, a.observed, a.now)
    case Check => AfterCheck(t, c, a.checked, a.now, timeout)
  }

  function Steps(w: Work, t: Tally, need: seq<ComponentSpec>, reply: Replies, timeout: Limit): Tally
    decreases |need|
  {
    if need == [] || t.over.Some? then t
    else Steps(w, Step(w, t, need[0], reply(need[0].name), timeout), need[1..], reply, timeout)
  }

  /** A loop's end: its status, and a result unless the next loop goes on. */
  datatype End = End(status: E.Status, result: Option<Outcome>)

  function Retry(t: Tally, need: seq<ComponentSpec>): Option<Outcome> {
    Some(Returned(After(Intended(LargestRetries(t.status.components, need)))))
  }

  function SubmitPass(s: E.Status, need: seq<ComponentSpec>, reply: Replies): End {
    var adopted := Steps(Adoption, Blank(s), need, reply, NO_LIMIT);
    var t := Steps(Submission, Blank(adopted.status), need, reply, NO_LIMIT);
    if t.over.Some? then End(t.status, t.over)
    else if t.exhausted then End(FailWith(t.status, "DeployFailed"), Some(Returned(Never)))
    else End(t.status, if t.retrying then Retry(t, need) else Some(Returned(After(REQUEUE_AFTER))))
  }

  function ObservePass(s: E.Status, need: seq<ComponentSpec>, reply: Replies): End {
    var t := Steps(Observation, Blank(s), need, reply, NO_LIMIT);
    End(t.status,
        if t.over.Some? then t.over
        else if t.retrying then Retry(t, need)
        else if t.running then Some(Returned(After(REQUEUE_AFTER)))
        else None)
  }

  function CheckPass(s: E.Status, need: seq<ComponentSpec>, reply: Replies, timeout: Limit): End {
    var t := Steps(Check, Blank(s), need, reply, timeout);
    End(t.status,
        if t.over.Some? then t.over
        else if t.retrying then Retry(t, need)
        else Some(Returned(After(if t.running then REQUEUE_AFTER else SECOND))))
  }

  /** processLevel. fetched: the template and the bindings could be read. */
  function LevelPass(s: E.Status, level: seq<ComponentSpec>, phases: map<string, ComponentPhase>,
                 fetched: bool, reply: Replies, timeout: Limit): End
  {
    var need := Select(level, phases, Submission);
    var submitting := Select(level, phases, Observation);
    if (need != [] || submitting != []) && !fetched then End(s, Some(Errored))
    else if need != [] then SubmitPass(s, need, reply)
    else
      var observed := if submitting != [] then ObservePass(s, submitting, reply) else End(s, None);
      if observed.result.Some? then observed
      else CheckPass(observed.status, Select(level, phases, Check), reply, timeout)
  }
}
