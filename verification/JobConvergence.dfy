/**
  Submitting one payload over and over makes progress: whatever the caches say, the slot
  only comes closer to a Job with that payload, except when such a Job failed.
 */
module JobConvergence {
  import opened Wrappers
  import opened JobProtocol

  /** running other > ended, to be replaced > deleting > absent > running mine > done */
  function Rank(slot: Option<Job>, payload: Payload): nat {
    match slot
    case None => 2
    case Some(j) =>
      if j.deleting then 3
      else match Terminal(j.conditions)
        case Running => if j.payload == payload then 1 else 5
        case Succeeded => if j.payload == payload then 0 else 4
        case Failed => 4
  }

  /** Only this payload is submitted, and nobody else creates or deletes the Job. */
  predicate Single(a: Action, payload: Payload) {
    match a
    case Begin(_, p) => p == payload
    case ForeignDelete => false
    case ForeignCreate(_, _) => false
    case _ => true
  }

  ghost predicate AllMine(s: State, payload: Payload) {
    Inv(s) && forall pid | pid in s.submits :: s.submits[pid].payload == payload
  }

  /** The one step up: a Job with this payload reports its failure. */
  predicate OwnFailure(s: State, a: Action, payload: Payload) {
    a.Report? && Rank(s.slot, payload) == 1 && Rank(Apply(s, a).slot, payload) == 4
  }

  function Failures(s: State, run: seq<Action>, payload: Payload): nat
    decreases |run|
  {
    if run == [] then 0
    else (if OwnFailure(s, run[0], payload) then 1 else 0) + Failures(Apply(s, run[0]), run[1..], payload)
  }

  /** How often the slot changed its rank. */
  function Changes(s: State, run: seq<Action>, payload: Payload): nat
    decreases |run|
  {
    if run == [] then 0
    else
      var t := Apply(s, run[0]);
      (if Rank(s.slot, payload) != Rank(t.slot, payload) then 1 else 0) + Changes(t, run[1..], payload)
  }

  lemma CallDescends(s: State, pid: nat, payload: Payload)
    requires AllMine(s, payload) && pid in s.submits
    ensures AllMine(Call(s, pid), payload) && Rank(Call(s, pid).slot, payload) <= Rank(s.slot, payload)
  {
    CallKeepsInv(s, pid);
    assert SubmitSound(s, s.submits[pid]);
    match s.submits[pid].stage {
      case LiveReplaceable(live) =>
        if s.slot.Some? && s.slot.value.uid == live.uid {
          TerminalIsPermanent(live.conditions, s.slot.value.conditions);
        }
      case _ =>
    }
  }

  lemma ReportDescends(s: State, c: Condition, payload: Payload)
    ensures var t := Surroundings(s, Report(c));
      Rank(t.slot, payload) <= Rank(s.slot, payload) || (Rank(s.slot, payload) == 1 && Rank(t.slot, payload) == 4)
  {
    if s.slot.Some? {
      var j := s.slot.value;
      if Terminal(j.conditions) != Running { TerminalIsPermanent(j.conditions, j.conditions + [c]); }
    }
  }

  lemma SurroundingsDescend(s: State, a: Action, payload: Payload)
    requires AllMine(s, payload) && Single(a, payload)
    ensures AllMine(Surroundings(s, a), payload)
    ensures var t := Surroundings(s, a);
      Rank(t.slot, payload) <= Rank(s.slot, payload)
      || (a.Report? && Rank(s.slot, payload) == 1 && Rank(t.slot, payload) == 4)
  {
    SurroundingsKeepInv(s, a);
    hide Inv, Terminal;
    if a.Report? { ReportDescends(s, a.condition, payload); }
  }

  lemma OwnStepStaysMine(s: State, a: Action, payload: Payload)
    requires AllMine(s, payload) && Single(a, payload) && (a.Begin? || a.ReadCache? || a.Fail? || a.Drop?)
    ensures AllMine(Apply(s, a), payload) && Apply(s, a).slot == s.slot
  {
    StepKeepsInv(s, a);
    hide Inv, Keep;
  }

  lemma LostDescends(s: State, pid: nat, payload: Payload)
    requires AllMine(s, payload) && pid in s.submits
    ensures AllMine(Apply(s, LoseReply(pid)), payload)
    ensures Rank(Apply(s, LoseReply(pid)).slot, payload) <= Rank(s.slot, payload)
  {
    CallDescends(s, pid, payload);
    CallKeepsSubmits(s, pid);
    hide AllMine, Rank, Call;
    OwnStepStaysMine(Call(s, pid), Fail(pid), payload);
  }

  /** Every step descends or stays, or is the failure of a Job with this payload. */
  lemma StepDescends(s: State, a: Action, payload: Payload)
    requires AllMine(s, payload) && Single(a, payload)
    ensures AllMine(Apply(s, a), payload)
    ensures Rank(Apply(s, a).slot, payload) <= Rank(s.slot, payload) || OwnFailure(s, a, payload)
  {
    hide AllMine, Rank, Call, CacheCall, Surroundings;
    if a.Proceed? {
      if a.pid in s.submits { CallDescends(s, a.pid, payload); }
    } else if a.LoseReply? {
      if a.pid in s.submits { LostDescends(s, a.pid, payload); }
    } else if a.Begin? || a.ReadCache? || a.Fail? || a.Drop? {
      OwnStepStaysMine(s, a, payload);
    } else {
      SurroundingsDescend(s, a, payload);
    }
  }

  /** So a run changes the slot's rank at most five times, and four times more for each
      failure: after that it rests. */
  lemma {:induction false} ReplacementConverges(s: State, run: seq<Action>, payload: Payload)
    requires AllMine(s, payload) && forall a | a in run :: Single(a, payload)
    ensures Changes(s, run, payload) + Rank(Execute(s, run).slot, payload)
            <= Rank(s.slot, payload) + 4 * Failures(s, run, payload)
    decreases |run|
  {
    hide AllMine, Apply, Rank;
    if run != [] {
      StepDescends(s, run[0], payload);
      ReplacementConverges(Apply(s, run[0]), run[1..], payload);
      RankBounded(s.slot, payload);
      RankBounded(Apply(s, run[0]).slot, payload);
      assert OwnFailure(s, run[0], payload) ==>
               Rank(s.slot, payload) == 1 && Rank(Apply(s, run[0]).slot, payload) == 4;
    }
  }

  lemma RankBounded(slot: Option<Job>, payload: Payload)
    ensures Rank(slot, payload) <= 5
  {
  }

  /** The calls of one submit, undisturbed and with a cache that has caught up. */
  function FreshSubmit(s: State, pid: nat, payload: Payload): seq<Action>
    requires |s.past| > 0
  {
    [Begin(pid, payload), ReadCache(pid, |s.past| - 1), Proceed(pid), Proceed(pid), Drop(pid)]
  }

  lemma ExecuteFive(s: State, a: Action, b: Action, c: Action, d: Action, e: Action)
    ensures Execute(s, [a, b, c, d, e]) == Apply(Apply(Apply(Apply(Apply(s, a), b), c), d), e)
  {
    hide Apply;
    ExecuteFirst(s, a, [b, c, d, e]);
    ExecuteFirst(Apply(s, a), b, [c, d, e]);
    ExecuteFirst(Apply(Apply(s, a), b), c, [d, e]);
    ExecuteFirst(Apply(Apply(Apply(s, a), b), c), d, [e]);
    ExecuteFirst(Apply(Apply(Apply(Apply(s, a), b), c), d), e, []);
    assert [e] + [] == [e] && [d] + [e] == [d, e] && [c] + [d, e] == [c, d, e];
    assert [b] + [c, d, e] == [b, c, d, e] && [a] + [b, c, d, e] == [a, b, c, d, e];
  }

  lemma ExecuteFirst(s: State, a: Action, rest: seq<Action>)
    ensures Execute(s, [a] + rest) == Execute(Apply(s, a), rest)
  {
    assert ([a] + rest)[1..] == rest;
  }

  function JustBegun(s: State, pid: nat, payload: Payload): State {
    s.(submits := s.submits[pid := Submit(payload, Begun)])
  }

  lemma AppliesCalls(s: State, pid: nat, payload: Payload, v: nat)
    requires Orderly(s) && pid !in s.submits
    ensures pid in JustBegun(s, pid, payload).submits
    ensures var cached := CacheCall(JustBegun(s, pid, payload), pid, v);
      && pid in cached.submits && pid in Call(cached, pid).submits
      && Apply(Apply(Apply(Apply(Apply(s, Begin(pid, payload)), ReadCache(pid, v)), Proceed(pid)), Proceed(pid)),
               Drop(pid)).slot
         == Call(Call(cached, pid), pid).slot
  {
    hide Keep, Succession;
  }

  lemma StillOrderly(s: State, pid: nat, payload: Payload)
    requires Orderly(s)
    ensures var s1 := JustBegun(s, pid, payload);
      Orderly(s1) && s1.past == s.past && s1.slot == s.slot && pid in s1.submits && s1.submits[pid].payload == payload
  {
    hide Succession;
  }

  /** Once the cache has caught up, a submit takes every step that is its to take: it removes
      what is to be replaced, and fills an empty slot; all else it leaves as it is. */
  lemma FreshSubmitAdvances(s: State, pid: nat, payload: Payload)
    requires Orderly(s) && pid !in s.submits
    ensures var t := Execute(s, FreshSubmit(s, pid, payload));
      if Rank(s.slot, payload) in {2, 4} then Rank(t.slot, payload) == Rank(s.slot, payload) - 1 else t.slot == s.slot
  {
    var v := |s.past| - 1;
    assert FreshSubmit(s, pid, payload) ==
           [Begin(pid, payload), ReadCache(pid, v), Proceed(pid), Proceed(pid), Drop(pid)];
    hide *;
    ExecuteFive(s, Begin(pid, payload), ReadCache(pid, v), Proceed(pid), Proceed(pid), Drop(pid));
    AppliesCalls(s, pid, payload, v);
    StillOrderly(s, pid, payload);
    LiveAgrees(JustBegun(s, pid, payload), pid, v);
  }

  /** With a cache that has caught up, the live read confirms what the cache said. */
  lemma LiveAgrees(s: State, pid: nat, v: nat)
    requires Orderly(s) && pid in s.submits && v == |s.past| - 1
    ensures var payload := s.submits[pid].payload;
      var cached := CacheCall(s, pid, v);
      var t := Call(Call(cached, pid), pid);
      && pid in cached.submits && pid in Call(cached, pid).submits
      && if Rank(s.slot, payload) in {2, 4} then Rank(t.slot, payload) == Rank(s.slot, payload) - 1
         else t.slot == s.slot
  {
    assert Terminal([]) == Running;
    hide Terminal;
    assert s.past[v] == s.slot;
  }
}
