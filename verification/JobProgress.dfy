/**
  The two halves of convergence put together: a Job with the payload is kept, and submitting
  over and over gets to one within a bound.
 */
module JobProgress {
  import opened Wrappers
  import opened JobProtocol
  import opened JobConvergence

  lemma SameJob(s: State, a: Action)
    ensures s.slot.Some? && Apply(s, a).slot.Some? ==> Apply(s, a).slot.value.uid == s.slot.value.uid
  {
    hide Keep, Terminal;
  }

  /** With unchanged inputs the Job that runs or is done with them is never replaced, by any
      number of submits over caches of any age. */
  lemma {:induction false} OwnJobIsKept(s: State, run: seq<Action>, payload: Payload)
    requires AllMine(s, payload) && Rank(s.slot, payload) <= 1
    requires (forall a | a in run :: Single(a, payload)) && Failures(s, run, payload) == 0
    ensures var t := Execute(s, run);
      && s.slot.Some? && t.slot.Some? && t.slot.value.uid == s.slot.value.uid
      && Rank(t.slot, payload) <= Rank(s.slot, payload)
    decreases |run|
  {
    EmptyRank(s.slot, payload);
    hide AllMine, Apply, Rank, Single;
    if run != [] {
      var t := Apply(s, run[0]);
      assert run[0] in run;
      StepDescends(s, run[0], payload);
      SameJob(s, run[0]);
      EmptyRank(t.slot, payload);
      OwnJobIsKept(t, run[1..], payload);
    }
  }

  lemma EmptyRank(slot: Option<Job>, payload: Payload)
    ensures slot.None? ==> Rank(slot, payload) == 2
  {
  }

  // ---- getting there ---------------------------------------------------------------------

  /** One reconcile: a submit with a cache that has caught up, and whatever others do before
      and after it. */
  datatype Round = Round(before: seq<Action>, pid: nat, after: seq<Action>)

  function RunOf(s: State, round: Round, payload: Payload): seq<Action> {
    var mid := Execute(s, round.before);
    round.before + (if |mid.past| > 0 then FreshSubmit(mid, round.pid, payload) else []) + round.after
  }

  function After(s: State, round: Round, payload: Payload): State {
    Execute(s, RunOf(s, round, payload))
  }

  /** What a round may rely on: while another Job runs, or one is being deleted, the round sees
      it end, or go. Otherwise it is up to the submit. */
  ghost predicate Served(s: State, round: Round, payload: Payload) {
    && (forall a | a in round.before + round.after :: Single(a, payload))
    && round.pid !in Execute(s, round.before).submits
    && (Rank(s.slot, payload) in {3, 5} ==> Changes(s, RunOf(s, round, payload), payload) > 0)
  }

  ghost predicate AllServed(s: State, rounds: seq<Round>, payload: Payload)
    decreases |rounds|
  {
    rounds == [] || (Served(s, rounds[0], payload) && AllServed(After(s, rounds[0], payload), rounds[1..], payload))
  }

  function AllRounds(s: State, rounds: seq<Round>, payload: Payload): seq<Action>
    decreases |rounds|
  {
    if rounds == [] then []
    else RunOf(s, rounds[0], payload) + AllRounds(After(s, rounds[0], payload), rounds[1..], payload)
  }

  /** No round starts with a Job that runs with this payload, or is done with it. */
  ghost predicate NeverThere(s: State, rounds: seq<Round>, payload: Payload)
    decreases |rounds|
  {
    rounds == [] || (Rank(s.slot, payload) > 1 && NeverThere(After(s, rounds[0], payload), rounds[1..], payload))
  }

  lemma {:induction false} RunsAdd(s: State, a: seq<Action>, b: seq<Action>, payload: Payload)
    ensures Execute(s, a + b) == Execute(Execute(s, a), b)
    ensures Changes(s, a + b, payload) == Changes(s, a, payload) + Changes(Execute(s, a), b, payload)
    ensures Failures(s, a + b, payload) == Failures(s, a, payload) + Failures(Execute(s, a), b, payload)
    decreases |a|
  {
    hide Apply, Rank, OwnFailure;
    if a == [] {
      assert a + b == b;
    } else {
      assert (a + b)[1..] == a[1..] + b;
      RunsAdd(Apply(s, a[0]), a[1..], b, payload);
    }
  }

  lemma {:induction false} NoChangeSameRank(s: State, run: seq<Action>, payload: Payload)
    requires Changes(s, run, payload) == 0
    ensures Rank(Execute(s, run).slot, payload) == Rank(s.slot, payload)
    decreases |run|
  {
    hide Apply, Rank;
    if run != [] { NoChangeSameRank(Apply(s, run[0]), run[1..], payload); }
  }

  /** A round that does not start there changes the rank. */
  lemma RoundChanges(s: State, round: Round, payload: Payload)
    requires Orderly(s) && Served(s, round, payload) && Rank(s.slot, payload) > 1
    ensures Changes(s, RunOf(s, round, payload), payload) > 0
  {
    RankBounded(s.slot, payload);
    RunKeepsOrder(s, round.before);
    hide Execute, Changes, Rank, Orderly, FreshSubmit;
    if Rank(s.slot, payload) in {2, 4} {
      var mid := Execute(s, round.before);
      NonEmptyPast(mid);
      var submit := FreshSubmit(mid, round.pid, payload);
      FreshSubmitAdvances(mid, round.pid, payload);
      RunsAdd(s, round.before, submit, payload);
      RunsAdd(s, round.before + submit, round.after, payload);
      if Changes(s, round.before, payload) == 0 {
        NoChangeSameRank(s, round.before, payload);
        if Changes(mid, submit, payload) == 0 { NoChangeSameRank(mid, submit, payload); }
      }
    }
  }

  lemma NonEmptyPast(s: State)
    requires Orderly(s)
    ensures |s.past| > 0
  {
  }

  lemma FreshSubmitIsSingle(s: State, pid: nat, payload: Payload)
    requires |s.past| > 0
    ensures forall a | a in FreshSubmit(s, pid, payload) :: Single(a, payload)
  {
  }

  lemma {:induction false} RunKeepsMine(s: State, run: seq<Action>, payload: Payload)
    requires AllMine(s, payload) && forall a | a in run :: Single(a, payload)
    ensures AllMine(Execute(s, run), payload)
    decreases |run|
  {
    hide AllMine, Apply, Rank, Single;
    if run != [] {
      assert run[0] in run;
      StepDescends(s, run[0], payload);
      RunKeepsMine(Apply(s, run[0]), run[1..], payload);
    }
  }

  lemma RoundIsSingle(s: State, round: Round, payload: Payload)
    requires Orderly(s) && Served(s, round, payload)
    ensures forall a | a in RunOf(s, round, payload) :: Single(a, payload)
    ensures Orderly(After(s, round, payload))
  {
    RunKeepsOrder(s, round.before);
    RunKeepsOrder(s, RunOf(s, round, payload));
    var mid := Execute(s, round.before);
    NonEmptyPast(mid);
    FreshSubmitIsSingle(mid, round.pid, payload);
    hide Execute, Orderly, FreshSubmit, Single, Changes;
    forall a | a in RunOf(s, round, payload) ensures Single(a, payload) {
      assert a in round.before + round.after || a in FreshSubmit(mid, round.pid, payload);
    }
  }

  lemma {:induction false} RoundsChange(s: State, rounds: seq<Round>, payload: Payload)
    requires AllMine(s, payload) && Orderly(s) && AllServed(s, rounds, payload) && NeverThere(s, rounds, payload)
    ensures Changes(s, AllRounds(s, rounds, payload), payload) >= |rounds|
    ensures forall a | a in AllRounds(s, rounds, payload) :: Single(a, payload)
    decreases |rounds|
  {
    hide Execute, Orderly, AllMine, Rank, Served, RunOf, Single, Changes;
    if rounds == [] {
    } else {
      var one := RunOf(s, rounds[0], payload);
      var t := After(s, rounds[0], payload);
      RoundIsSingle(s, rounds[0], payload);
      RoundChanges(s, rounds[0], payload);
      RunKeepsMine(s, one, payload);
      RunsAdd(s, one, AllRounds(t, rounds[1..], payload), payload);
      RoundsChange(t, rounds[1..], payload);
    }
  }

  /** Submitting the payload over and over gets to a Job that runs with it or is done with it:
      within as many rounds as the rank of the slot, four more for each such Job that fails. */
  lemma SubmitsGetThere(s: State, rounds: seq<Round>, payload: Payload)
    requires AllMine(s, payload) && Orderly(s) && AllServed(s, rounds, payload)
    requires |rounds| > Rank(s.slot, payload) + 4 * Failures(s, AllRounds(s, rounds, payload), payload)
    ensures !NeverThere(s, rounds, payload)
  {
    if NeverThere(s, rounds, payload) {
      RoundsChange(s, rounds, payload);
      ReplacementConverges(s, AllRounds(s, rounds, payload), payload);
      assert false;
    }
  }
}
