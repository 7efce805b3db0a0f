/** submit and observe as the operator runs them, with other actors between any two calls. */
module JobServer {
  import opened Wrappers
  import opened Turns
  import opened JobProtocol

  predicate Mentions(a: Action, pid: nat) {
    match a
    case Begin(q, _) => q == pid
    case ReadCache(q, _) => q == pid
    case Proceed(q) => q == pid
    case Fail(q) => q == pid
    case LoseReply(q) => q == pid
    case Drop(q) => q == pid
    case _ => false
  }

  predicate Foreign(run: seq<Action>, pid: nat) {
    forall a | a in run :: !Mentions(a, pid)
  }

  ghost predicate SameSubmit(s: State, t: State, pid: nat) {
    (pid in s.submits <==> pid in t.submits) && (pid in s.submits ==> s.submits[pid] == t.submits[pid])
  }

  lemma {:induction false} ForeignRun(s: State, run: seq<Action>, pid: nat)
    requires Foreign(run, pid)
    ensures SameSubmit(s, Execute(s, run), pid)
    decreases |run|
  {
    if run != [] {
      assert !Mentions(run[0], pid);
      assert SameSubmit(s, Apply(s, run[0]), pid);
      hide Apply;
      ForeignRun(Apply(s, run[0]), run[1..], pid);
    }
  }

  lemma {:induction false} ExecuteConcat(s: State, a: seq<Action>, b: seq<Action>)
    ensures Execute(s, a + b) == Execute(Execute(s, a), b)
    decreases |a|
  {
    hide Apply;
    if a == [] {
      assert a + b == b;
    } else {
      assert (a + b)[1..] == a[1..] + b;
      ExecuteConcat(Apply(s, a[0]), a[1..], b);
    }
  }

  class Server {
    var state: State
    ghost var log: seq<Action>

    ghost predicate Valid()
      reads this
    {
      state == Execute(INITIAL, log)
    }

    constructor ()
      ensures Valid() && log == []
    {
      state := INITIAL;
      log := [];
    }

    method Do(a: Action)
      requires Valid()
      modifies this
      ensures Valid() && log == old(log) + [a] && state == Apply(old(state), a)
    {
      hide Apply;
      ExecuteConcat(INITIAL, log, [a]);
      state := Apply(state, a);
      log := log + [a];
    }

    method Others(run: seq<Action>, pid: nat)
      requires Valid() && Foreign(run, pid)
      modifies this
      ensures Valid() && log == old(log) + run && SameSubmit(old(state), state, pid)
      ensures state == Execute(old(state), run)
      ensures run == [] ==> state == old(state)
    {
      ExecuteConcat(INITIAL, log, run);
      ForeignRun(state, run, pid);
      state := Execute(state, run);
      log := log + run;
    }

    /** One API call of submit `pid`; `at` is the server it met. */
    method Api(pid: nat, turn: Turn<Action>) returns (ok: bool, at: State)
      requires Valid() && Foreign(turn.before, pid) && pid in state.submits
      modifies this
      ensures Valid() && old(log) + turn.before <= log
      ensures SameSubmit(old(state), at, pid) && pid in state.submits
      ensures ok ==> state == Apply(at, Proceed(pid))
      ensures ok <==> turn.reply.Answered?
      ensures Still(turn) ==> ok && at == old(state)
      ensures !ok ==> state.submits[pid] == old(state).submits[pid].(stage := Finished(false))
    {
      Others(turn.before, pid);
      at := state;
      ok := turn.reply.Answered?;
      match turn.reply {
        case Answered => Do(Proceed(pid));
        case Refused => Do(Fail(pid));
        case Lost => Do(LoseReply(pid));
      }
    }

    /** The cache may serve any content the slot has had. */
    method Cached(version: nat) returns (job: Option<Job>)
      ensures job == if version < |state.past| then state.past[version] else None
    {
      job := if version < |state.past| then state.past[version] else None;
    }
  }

  ghost predicate Undisturbed(env: nat -> Turn<Action>, pid: nat) {
    forall i :: Foreign(env(i).before, pid)
  }

  predicate JustMade(slot: Option<Job>, payload: Payload) {
    slot.Some? && slot.value == Job(slot.value.uid, payload, [], false, true)
  }

  /** Creates the Job; a name that is taken is fine, unless by a Job that is not Petri's. */
  method CreateJob(server: Server, pid: nat, env: nat -> Turn<Action>) returns (ok: bool, ghost taken: bool)
    requires server.Valid() && pid in server.state.submits && Undisturbed(env, pid)
    requires server.state.submits[pid].stage.NothingCached?
    modifies server
    ensures server.Valid() && old(server.log) <= server.log
    ensures pid in server.state.submits && server.state.submits[pid].stage == Finished(ok)
    ensures Calm(env) ==> server.state == Apply(Apply(old(server.state), Proceed(pid)), Proceed(pid))
    ensures ok && !taken ==> JustMade(server.state.slot, old(server.state).submits[pid].payload)
    ensures taken && env(4).reply.Answered? ==> (ok <==> server.state.slot.None? || server.state.slot.value.managed)
    ensures taken && !env(4).reply.Answered? ==> !ok
  {
    hide Execute;
    var at;
    ok, at := server.Api(pid, env(3));
    taken := false;
    if !ok { return false, taken; }
    if server.state.submits[pid].stage.NameTaken? {
      taken := true;
      ok, at := server.Api(pid, env(4));
      if !ok { return false, taken; }
      if at.slot.None? { return true, taken; }
      return at.slot.value.managed, taken;
    }
  }

  /** A live read confirms what the cache said before the Job is deleted. */
  method ReplaceJob(server: Server, pid: nat, existing: Job, payload: Payload, env: nat -> Turn<Action>)
    returns (ok: bool)
    requires server.Valid() && pid in server.state.submits && Undisturbed(env, pid)
    requires server.state.submits[pid] == JobProtocol.Submit(payload, CachedReplaceable(existing))
    modifies server
    ensures server.Valid() && old(server.log) <= server.log
    ensures pid in server.state.submits && server.state.submits[pid].stage == Finished(ok)
    ensures Calm(env) ==> server.state == Apply(Apply(old(server.state), Proceed(pid)), Proceed(pid))
  {
    hide Execute, Keep;
    var at;
    ok, at := server.Api(pid, env(1));
    if ok && at.slot.Some? && at.slot.value.uid == existing.uid && !Keep(at.slot.value, payload) {
      ok, at := server.Api(pid, env(2));
    }
  }

  /** All the calls of one submit, in a row. */
  function WholeSubmit(s: State, pid: nat, payload: Payload, version: nat): State {
    Apply(Apply(Apply(Apply(s, Begin(pid, payload)), ReadCache(pid, version)), Proceed(pid)), Proceed(pid))
  }

  /** An ended Job that did not succeed with this payload, and is not on its way out. */
  predicate Replaceable(slot: Option<Job>, payload: Payload) {
    && slot.Some? && !slot.value.deleting && Terminal(slot.value.conditions) != Running
    && !(Terminal(slot.value.conditions) == Succeeded && slot.value.payload == payload)
  }

  /** What the cache shows at this version. */
  function SeenAt(s: State, version: nat): Option<Job> {
    if version < |s.past| then s.past[version] else None
  }

  /** What a whole submit leaves in the slot. */
  predicate Leaves(s: State, t: State, pid: nat, payload: Payload, seen: Option<Job>) {
    var due := Replaceable(seen, payload) && Replaceable(s.slot, payload) && s.slot.value.uid == seen.value.uid;
    && t.slot == (if due then Some(s.slot.value.(deleting := true))
                  else if seen.None? && s.slot.None? then Some(Job(s.next, payload, [], false, true))
                  else s.slot)
    && t.deletions == s.deletions + (if due then [Deletion(s.slot.value, payload)] else [])
    && pid in t.submits
    && t.submits[pid].stage == Finished(seen.Some? || s.slot.None? || s.slot.value.managed)
  }

  lemma NewLeaves(s: State, pid: nat, payload: Payload, version: nat)
    requires pid !in s.submits && SeenAt(s, version).None?
    ensures Leaves(s, WholeSubmit(s, pid, payload, version), pid, payload, None)
  {
    hide Terminal, LiveCall, DeleteCall, Surroundings;
  }

  lemma OldLeaves(s: State, pid: nat, payload: Payload, version: nat)
    requires pid !in s.submits && SeenAt(s, version).Some?
    ensures Leaves(s, WholeSubmit(s, pid, payload, version), pid, payload, SeenAt(s, version))
  {
    hide Terminal, CreateCall, TakenCall, Surroundings;
  }

  /** Whatever the age of its cache, a submit deletes a Job exactly when that is to be replaced both in the
      cache and live, and is the same one; it makes one exactly when there is none in both; and it fails
      exactly when the cache shows none but somebody else's Job is there. */
  lemma OutcomesOfWholeSubmit(s: State, pid: nat, payload: Payload, version: nat)
    requires pid !in s.submits
    ensures Leaves(s, WholeSubmit(s, pid, payload, version), pid, payload, SeenAt(s, version))
  {
    hide WholeSubmit, Leaves;
    if SeenAt(s, version).None? {
      NewLeaves(s, pid, payload, version);
    } else {
      OldLeaves(s, pid, payload, version);
    }
  }

  /** submit: every write it makes is a step of the protocol, so it deletes nothing that runs
      and nothing that is done with the payload; and left to itself it makes every step there
      is to make. */
  method Submit(server: Server, pid: nat, payload: Payload, version: nat, env: nat -> Turn<Action>) returns (ok: bool)
    requires server.Valid() && pid !in server.state.submits && Undisturbed(env, pid)
    modifies server
    ensures server.Valid() && old(server.log) <= server.log
    ensures pid in server.state.submits && server.state.submits[pid].stage == Finished(ok)
    ensures forall d | d in server.state.deletions :: Harmless(d)
    ensures Calm(env) ==> server.state == WholeSubmit(old(server.state), pid, payload, version)
  {
    hide Execute, Inv;
    server.Others(env(0).before, pid);
    server.Do(Begin(pid, payload));
    var existing := server.Cached(version);
    server.Do(ReadCache(pid, version));
    if existing.Some? {
      if Keep(existing.value, payload) {
        ok := true;
      } else {
        ok := ReplaceJob(server, pid, existing.value, payload, env);
      }
    } else {
      ghost var taken;
      ok, taken := CreateJob(server, pid, env);
    }
    ReplacementIsSafe(server.log);
  }

  datatype Verdict = Pending | Ongoing | Ended(phase: Phase) | Unknown

  /** The Job that observe vouches for. */
  predicate Witness(slot: Option<Job>, payload: Payload, phase: Phase) {
    slot.Some? && !slot.value.deleting && slot.value.payload == payload && Terminal(slot.value.conditions) == phase
  }

  /** The termination messages of a Job's Pods, per Pod and container, or why there are none. */
  datatype Pods = Unlisted(error: string) | Listed(messages: seq<seq<Option<string>>>)

  function FirstOf(pod: seq<Option<string>>): Option<string> {
    if pod == [] then None
    else if pod[0].Some? && pod[0].value != "" then pod[0]
    else FirstOf(pod[1..])
  }

  function FirstMessage(pods: seq<seq<Option<string>>>): Option<string> {
    if pods == [] then None else if FirstOf(pods[0]).Some? then FirstOf(pods[0]) else FirstMessage(pods[1..])
  }

  function Reason(op: string, pods: Pods): string {
    match pods
    case Unlisted(error) => op + " job failed (could not read pod: " + error + ")"
    case Listed(messages) =>
      var first := FirstMessage(messages);
      if first.Some? then first.value else op + " job failed"
  }

  /** Container j of Pod i left a message. */
  predicate Speaks(pods: seq<seq<Option<string>>>, i: nat, j: nat) {
    i < |pods| && j < |pods[i]| && pods[i][j].Some? && pods[i][j].value != ""
  }

  predicate Before(i: nat, j: nat, k: nat, l: nat) {
    i < k || (i == k && j < l)
  }

  lemma {:induction false} FirstOfIs(pod: seq<Option<string>>) returns (j: nat)
    ensures FirstOf(pod).Some? ==> j < |pod| && FirstOf(pod) == pod[j] && pod[j].Some? && pod[j].value != ""
    ensures forall l: nat | l < |pod| && (FirstOf(pod).None? || l < j) :: pod[l].None? || pod[l].value == ""
  {
    j := 0;
    if pod != [] && (pod[0].None? || pod[0].value == "") {
      j := FirstOfIs(pod[1..]);
      j := j + 1;
      assert forall l: nat | 0 < l < |pod| :: pod[l] == pod[1..][l - 1];
    }
  }

  /** It is a message left, and no container before left one; there is none only where nobody did. */
  lemma {:induction false} FirstMessageIs(pods: seq<seq<Option<string>>>) returns (i: nat, j: nat)
    ensures FirstMessage(pods).Some? ==> Speaks(pods, i, j) && FirstMessage(pods) == pods[i][j]
    ensures forall k: nat, l: nat | Speaks(pods, k, l) :: FirstMessage(pods).Some? && !Before(k, l, i, j)
  {
    hide FirstOf;
    i, j := 0, 0;
    if pods != [] {
      j := FirstOfIs(pods[0]);
      if FirstOf(pods[0]).None? {
        i, j := FirstMessageIs(pods[1..]);
        i := i + 1;
        forall k: nat, l: nat | Speaks(pods, k, l) ensures k > 0 && Speaks(pods[1..], k - 1, l) {}
      }
    }
  }

  /** The reason of a failed Job: what its first container said that said anything, or a text of its own. */
  lemma ReasonIs(op: string, pods: seq<seq<Option<string>>>)
    ensures (forall i: nat, j: nat :: !Speaks(pods, i, j)) ==> Reason(op, Listed(pods)) == op + " job failed"
    ensures forall i: nat, j: nat
              | Speaks(pods, i, j) && (forall k: nat, l: nat | Before(k, l, i, j) :: !Speaks(pods, k, l)) ::
              Reason(op, Listed(pods)) == pods[i][j].value
  {
    hide FirstMessage, Before;
    var m, n := FirstMessageIs(pods);
    forall i: nat, j: nat
      | Speaks(pods, i, j) && (forall k: nat, l: nat | Before(k, l, i, j) :: !Speaks(pods, k, l))
      ensures Reason(op, Listed(pods)) == pods[i][j].value
    {
      assert !Before(m, n, i, j);
      OneFirst(i, j, m, n);
    }
  }

  lemma OneFirst(i: nat, j: nat, k: nat, l: nat)
    ensures Before(i, j, k, l) || Before(k, l, i, j) || (i == k && j == l)
  {
  }

  /** failureReason: the first message that is not empty. */
  method FailureReason(op: string, pods: Pods) returns (reason: string)
    ensures reason == Reason(op, pods)
  {
    if pods.Unlisted? { return op + " job failed (could not read pod: " + pods.error + ")"; }
    for i := 0 to |pods.messages|
      invariant FirstMessage(pods.messages) == FirstMessage(pods.messages[i..])
    {
      var pod := pods.messages[i];
      assert pods.messages[i..][1..] == pods.messages[i + 1..];
      for j := 0 to |pod|
        invariant FirstOf(pod) == FirstOf(pod[j..])
      {
        assert pod[j..][1..] == pod[j + 1..];
        if pod[j].Some? && pod[j].value != "" { return pod[j].value; }
      }
    }
    return op + " job failed";
  }

  /** At work: neither ended nor on its way out. */
  predicate AtWork(slot: Option<Job>) {
    slot.Some? && !slot.value.deleting && Terminal(slot.value.conditions) == Running
  }

  /** A Job with this payload that ended, and is not on its way out. */
  predicate EndedWith(slot: Option<Job>, payload: Payload) {
    slot.Some? && !slot.value.deleting && Terminal(slot.value.conditions) != Running && slot.value.payload == payload
  }

  /** observe: an end is only reported of a Job that carries this very payload, ended that
      way, and stood in the slot, not being deleted, while observe ran. Whatever the age of the
      cache, a Job that it shows at work is reported so, and only such a one; and only where the
      cache shows an end with this payload is the live read made. */
  method Observe(server: Server, pid: nat, payload: Payload, version: nat, turn: Turn<Action>, op: string, pods: Pods)
    returns (v: Verdict, reason: string)
    requires server.Valid() && Foreign(turn.before, pid)
    modifies server
    ensures server.Valid() && (server.log == old(server.log) || server.log == old(server.log) + turn.before)
    ensures v.Ended? ==> v.phase != Running && Witness(server.state.slot, payload, v.phase)
    ensures reason == if v == Ended(Failed) then Reason(op, pods) else ""
    ensures var cached := SeenAt(old(server.state), version);
      && (v.Ongoing? <==> AtWork(cached))
      && (v.Unknown? <==> EndedWith(cached, payload) && !turn.reply.Answered?)
      && (v.Ended? ==> EndedWith(cached, payload) && v.phase == Terminal(cached.value.conditions))
      && (v.Ended? <==> EndedWith(cached, payload) && turn.reply.Answered?
                        && Witness(server.state.slot, payload, Terminal(cached.value.conditions))
                        && server.state.slot.value.uid == cached.value.uid)
    ensures Still(turn) && version + 1 == |old(server.state).past| ==>
              var slot := old(server.state).slot;
              && (v.Ongoing? <==> AtWork(slot))
              && (v.Ended? <==> EndedWith(slot, payload))
              && (v.Ended? ==> v.phase == Terminal(slot.value.conditions))
              && (v.Pending? <==> !AtWork(slot) && !EndedWith(slot, payload))
  {
    RunKeepsOrder(INITIAL, server.log);
    var cached := server.Cached(version);
    if cached.None? || cached.value.deleting { return Pending, ""; }
    var phase := TerminalPhase(cached.value.conditions);
    if phase == Running { return Ongoing, ""; }
    if cached.value.payload != payload { return Pending, ""; }
    server.Others(turn.before, pid);
    if !turn.reply.Answered? { return Unknown, ""; }
    var live := server.state.slot;
    if live.None? { return Pending, ""; }
    var livePhase := TerminalPhase(live.value.conditions);
    if live.value.uid != cached.value.uid || live.value.deleting || livePhase != phase
        || live.value.payload != payload {
      return Pending, "";
    }
    assert Witness(live, payload, phase);
    assert turn.before == [] ==> server.state == old(server.state);
    reason := "";
    if phase == Failed { reason := FailureReason(op, pods); }
    return Ended(phase), reason;
  }
}
