/**
  The binding Secret of one shared component in one environment: submitShared creates it with a
  generated secret, submitShared and deprovisionShared read it through a cache of any age, and
  hand the secret on to the credentials Secret and to the Provisioner's Jobs.
 */
module BindingSecret {
  import opened Wrappers

  type Data = map<string, string>

  const GENERATED_SECRET_KEY := "petri.generated-secret"

  /** A binding's data: the generated secret, then the keys the provider's templates render to. */
  function BindingData(secret: string, keys: Data): Data {
    map[GENERATED_SECRET_KEY := secret] + keys
  }

  /** What a reader takes for the generated secret. */
  function SecretOf(binding: Data): string {
    if GENERATED_SECRET_KEY in binding then binding[GENERATED_SECRET_KEY] else ""
  }

  /** A call of submitShared or deprovisionShared, after what it did last. */
  datatype Stage = Creating(secret: string) | Holding(secret: string) | Credentialed(secret: string)

  /** bindings are all that were ever created, in order; the last one is on the server if
      present. credentials and uses are the secrets written for the Jobs, and given to them. */
  datatype State = State(
    bindings: seq<Data>,
    present: bool,
    calls: map<nat, Stage>,
    credentials: seq<string>,
    uses: seq<string>)

  /** Submit and Deprovision read: None when the cache has no binding, else one of those there
      were. Credential is ensureProvisionSecret, Provision the Job's options. */
  datatype Action =
    | Submit(pid: nat, version: Option<nat>, random: string)
    | Deprovision(pid: nat, version: Option<nat>)
    | Create(pid: nat, keys: Data)
    | Credential(pid: nat)
    | Provision(pid: nat)
    | Drop(pid: nat)
    | DeleteBinding

  function Seen(s: State, version: Option<nat>): Option<string> {
    if version.Some? && version.value < |s.bindings| then Some(SecretOf(s.bindings[version.value])) else None
  }

  function At(s: State, pid: nat, stage: Stage): State {
    s.(calls := s.calls[pid := stage])
  }

  function CreateCall(s: State, pid: nat, secret: string, keys: Data): State {
    if s.present then s.(calls := s.calls - {pid})
    else At(s.(bindings := s.bindings + [BindingData(secret, keys)], present := true), pid, Holding(secret))
  }

  function Apply(s: State, a: Action): State {
    match a
    case Submit(pid, version, random) =>
      if pid in s.calls then s
      else At(s, pid, if Seen(s, version).Some? then Holding(Seen(s, version).value) else Creating(random))
    case Deprovision(pid, version) =>
      if pid in s.calls || Seen(s, version).None? then s else At(s, pid, Holding(Seen(s, version).value))
    case Create(pid, keys) =>
      if pid in s.calls && s.calls[pid].Creating? then CreateCall(s, pid, s.calls[pid].secret, keys) else s
    case Credential(pid) =>
      if pid in s.calls && s.calls[pid].Holding?
      then At(s.(credentials := s.credentials + [s.calls[pid].secret]), pid, Credentialed(s.calls[pid].secret)) else s
    case Provision(pid) =>
      if pid in s.calls && s.calls[pid].Credentialed?
      then s.(uses := s.uses + [s.calls[pid].secret], calls := s.calls - {pid}) else s
    case Drop(pid) => s.(calls := s.calls - {pid})
    case DeleteBinding => s.(present := false)
  }

  function Execute(s: State, run: seq<Action>): State
    decreases |run|
  {
    if run == [] then s else Execute(Apply(s, run[0]), run[1..])
  }

  const INITIAL := State([], false, map[], [], [])

  lemma {:induction false} ExecuteConcat(s: State, a: seq<Action>, b: seq<Action>)
    ensures Execute(s, a + b) == Execute(Execute(s, a), b)
    decreases |a|
  {
    hide Apply;
    if a == [] {
      assert a + b == b;
    } else {
      assert (a + b)[1..] == a[1..] + b;
      ExecuteConcat(Apply(s, a[0]), a[1..], b);
    }
  }

  /** How often a binding was deleted that was there. */
  function Deletions(s: State, run: seq<Action>): nat
    decreases |run|
  {
    if run == [] then 0
    else (if run[0].DeleteBinding? && s.present then 1 else 0) + Deletions(Apply(s, run[0]), run[1..])
  }

  // ---- whose secrets are handed on -----------------------------------------------------------

  predicate IsBound(s: State, secret: string) {
    exists i | 0 <= i < |s.bindings| :: SecretOf(s.bindings[i]) == secret
  }

  predicate FromBinding(s: State, g: Stage) {
    g.Creating? || IsBound(s, g.secret)
  }

  /** Whatever is held or was handed on is the secret of a binding there is, or was. */
  ghost predicate Inv(s: State) {
    && (forall pid | pid in s.calls :: FromBinding(s, s.calls[pid]))
    && (forall u | u in s.credentials :: IsBound(s, u))
    && (forall u | u in s.uses :: IsBound(s, u))
    && (s.present ==> s.bindings != [])
  }

  /** A binding is created whose rendered keys take the reserved key, with another secret. */
  predicate Overrides(s: State, a: Action) {
    && a.Create? && a.pid in s.calls && s.calls[a.pid].Creating? && !s.present
    && GENERATED_SECRET_KEY in a.keys && a.keys[GENERATED_SECRET_KEY] != s.calls[a.pid].secret
    && !IsBound(s, s.calls[a.pid].secret)
  }

  lemma IsBoundGrows(s: State, t: State, secret: string)
    requires s.bindings <= t.bindings && IsBound(s, secret)
    ensures IsBound(t, secret)
  {
    var i :| 0 <= i < |s.bindings| && SecretOf(s.bindings[i]) == secret;
    assert SecretOf(t.bindings[i]) == secret;
  }

  lemma BindingsGrow(s: State, a: Action)
    ensures s.bindings <= Apply(s, a).bindings
  {
  }

  lemma SeenIsBound(s: State, version: Option<nat>)
    requires Seen(s, version).Some?
    ensures IsBound(s, Seen(s, version).value)
  {
  }

  /** The one call that a step moves. */
  lemma MovedIsBound(s: State, a: Action, pid: nat)
    requires Inv(s) && pid in Apply(s, a).calls && (pid !in s.calls || Apply(s, a).calls[pid] != s.calls[pid])
    ensures FromBinding(Apply(s, a), Apply(s, a).calls[pid]) <==> !Overrides(s, a)
  {
    hide IsBound;
    var t := Apply(s, a);
    BindingsGrow(s, a);
    forall u | IsBound(s, u) ensures IsBound(t, u) { IsBoundGrows(s, t, u); }
    if pid in s.calls { assert FromBinding(s, s.calls[pid]); }
    match a {
      case Submit(_, version, _) => if Seen(s, version).Some? { SeenIsBound(s, version); }
      case Deprovision(_, version) => if Seen(s, version).Some? { SeenIsBound(s, version); }
      case Create(_, keys) => CreatedIsBound(s, t, s.calls[pid].secret, keys);
      case Credential(_) =>
      case Provision(_) =>
      case Drop(_) =>
      case DeleteBinding =>
    }
  }

  lemma CreatedIsBound(s: State, t: State, secret: string, keys: Data)
    requires t.bindings == s.bindings + [BindingData(secret, keys)]
    ensures IsBound(t, secret) <==>
      !(GENERATED_SECRET_KEY in keys && keys[GENERATED_SECRET_KEY] != secret && !IsBound(s, secret))
  {
    assert t.bindings[|s.bindings|] == BindingData(secret, keys);
    if IsBound(s, secret) { IsBoundGrows(s, t, secret); }
    if IsBound(t, secret) {
      var i :| 0 <= i < |t.bindings| && SecretOf(t.bindings[i]) == secret;
      assert i < |s.bindings| ==> SecretOf(s.bindings[i]) == secret;
    }
  }

  /** A step keeps the invariant exactly when it does not override. */
  lemma StepKeepsInvExactlyWhen(s: State, a: Action)
    requires Inv(s)
    ensures Inv(Apply(s, a)) <==> !Overrides(s, a)
  {
    hide IsBound;
    var t := Apply(s, a);
    BindingsGrow(s, a);
    forall u | IsBound(s, u) ensures IsBound(t, u) { IsBoundGrows(s, t, u); }
    forall pid | pid in t.calls ensures FromBinding(t, t.calls[pid]) || Overrides(s, a) {
      if pid in s.calls { assert FromBinding(s, s.calls[pid]); }
      if pid !in s.calls || t.calls[pid] != s.calls[pid] { MovedIsBound(s, a, pid); }
    }
    HandedIsHeld(s, a);
    if Overrides(s, a) { MovedIsBound(s, a, a.pid); }
  }

  lemma HandedIsHeld(s: State, a: Action)
    requires Inv(s)
    ensures forall u | u in Apply(s, a).credentials :: IsBound(s, u)
    ensures forall u | u in Apply(s, a).uses :: IsBound(s, u)
  {
    hide IsBound;
    if (a.Credential? || a.Provision?) && a.pid in s.calls { assert FromBinding(s, s.calls[a.pid]); }
  }

  ghost predicate NeverOverrides(s: State, run: seq<Action>)
    decreases |run|
  {
    run == [] || (!Overrides(s, run[0]) && NeverOverrides(Apply(s, run[0]), run[1..]))
  }

  /** In every state that the run passes through, what is held and handed on is from a binding. */
  ghost predicate InvThroughout(s: State, run: seq<Action>)
    decreases |run|
  {
    Inv(s) && (run == [] || InvThroughout(Apply(s, run[0]), run[1..]))
  }

  /** Over any run: everything is from a binding all along exactly when no key overrides. */
  lemma {:induction false} SecretsAreBoundExactlyWhen(s: State, run: seq<Action>)
    requires Inv(s)
    ensures InvThroughout(s, run) <==> NeverOverrides(s, run)
    decreases |run|
  {
    hide Inv, Apply, Overrides;
    if run != [] {
      StepKeepsInvExactlyWhen(s, run[0]);
      if !Overrides(s, run[0]) {
        SecretsAreBoundExactlyWhen(Apply(s, run[0]), run[1..]);
      } else {
        assert !InvThroughout(Apply(s, run[0]), run[1..]);
      }
    }
  }

  lemma StepCounts(s: State, a: Action)
    ensures var t := Apply(s, a);
      |t.bindings| + (if t.present then 0 else 1) ==
      |s.bindings| + (if s.present then 0 else 1) + (if a.DeleteBinding? && s.present then 1 else 0)
  {
  }

  lemma {:induction false} RunCounts(s: State, run: seq<Action>)
    ensures var t := Execute(s, run);
      |t.bindings| + (if t.present then 0 else 1) == |s.bindings| + (if s.present then 0 else 1) + Deletions(s, run)
    decreases |run|
  {
    hide Apply;
    if run != [] {
      StepCounts(s, run[0]);
      RunCounts(Apply(s, run[0]), run[1..]);
    }
  }

  lemma {:induction false} RunKeepsInv(s: State, run: seq<Action>)
    requires Inv(s) && NeverOverrides(s, run)
    ensures Inv(Execute(s, run))
    decreases |run|
  {
    hide Inv, Apply, Overrides;
    if run != [] {
      StepKeepsInvExactlyWhen(s, run[0]);
      RunKeepsInv(Apply(s, run[0]), run[1..]);
    }
  }

  /** Until a binding is deleted, all credentials and all Jobs get the same generated secret, the
      binding's, whatever the cache says, unless a provider's key takes its place; and there is
      never more than one binding more than were deleted. */
  lemma OneSecretPerBinding(run: seq<Action>)
    requires NeverOverrides(INITIAL, run)
    ensures var s := Execute(INITIAL, run);
      && |s.bindings| <= Deletions(INITIAL, run) + 1
      && (forall u | u in s.credentials + s.uses :: IsBound(s, u))
      && (Deletions(INITIAL, run) == 0 ==>
            forall u | u in s.credentials + s.uses :: |s.bindings| == 1 && SecretOf(s.bindings[0]) == u)
  {
    RunKeepsInv(INITIAL, run);
    RunCounts(INITIAL, run);
  }

  // ---- from one binding on -------------------------------------------------------------------

  /** The binding that is there holds `g`, and so does every call. */
  ghost predicate Current(s: State, g: string) {
    && s.present && s.bindings != [] && SecretOf(s.bindings[|s.bindings| - 1]) == g
    && forall pid | pid in s.calls && !s.calls[pid].Creating? :: s.calls[pid].secret == g
  }

  /** A call starts from a cached binding of another secret: one that is deleted by now. */
  predicate Strays(s: State, a: Action, g: string) {
    (a.Submit? || a.Deprovision?) && a.pid !in s.calls && Seen(s, a.version).Some? && Seen(s, a.version).value != g
  }

  /** As long as the binding is there, a step leaves it current exactly when it does not stray. */
  lemma StepStaysCurrentExactlyWhen(s: State, a: Action, g: string)
    requires Current(s, g) && !a.DeleteBinding?
    ensures Current(Apply(s, a), g) <==> !Strays(s, a, g)
    ensures forall i | |s.uses| <= i < |Apply(s, a).uses| :: Apply(s, a).uses[i] == g
    ensures forall i | |s.credentials| <= i < |Apply(s, a).credentials| :: Apply(s, a).credentials[i] == g
    ensures s.uses <= Apply(s, a).uses && s.credentials <= Apply(s, a).credentials
  {
    hide Seen, SecretOf;
    var t := Apply(s, a);
    if Strays(s, a, g) { assert a.pid in t.calls && t.calls[a.pid].secret != g; }
  }

  ghost predicate NeverStrays(s: State, run: seq<Action>, g: string)
    decreases |run|
  {
    run == [] || (!Strays(s, run[0], g) && NeverStrays(Apply(s, run[0]), run[1..], g))
  }

  /** Every state that the run passes through is current. */
  ghost predicate CurrentThroughout(s: State, run: seq<Action>, g: string)
    decreases |run|
  {
    Current(s, g) && (run == [] || CurrentThroughout(Apply(s, run[0]), run[1..], g))
  }

  /** Over any run in which the binding is not deleted: everything keeps to its secret exactly
      when no call strays; then all that is handed on is that secret. */
  lemma {:induction false} SecretIsKeptExactlyWhen(s: State, run: seq<Action>, g: string)
    requires Current(s, g) && forall a | a in run :: !a.DeleteBinding?
    ensures CurrentThroughout(s, run, g) <==> NeverStrays(s, run, g)
    ensures NeverStrays(s, run, g) ==>
              var t := Execute(s, run);
              && s.uses <= t.uses && (forall i | |s.uses| <= i < |t.uses| :: t.uses[i] == g)
              && s.credentials <= t.credentials
              && (forall i | |s.credentials| <= i < |t.credentials| :: t.credentials[i] == g)
    decreases |run|
  {
    hide Current, Apply, Strays;
    if run != [] {
      assert run[0] in run;
      StepStaysCurrentExactlyWhen(s, run[0], g);
      if !Strays(s, run[0], g) {
        SecretIsKeptExactlyWhen(Apply(s, run[0]), run[1..], g);
      } else {
        NotCurrentAtAll(Apply(s, run[0]), run[1..], g);
      }
    }
  }

  lemma NotCurrentAtAll(s: State, run: seq<Action>, g: string)
    requires !Current(s, g)
    ensures !CurrentThroughout(s, run, g)
  {
  }

  // ---- two runs in which it is not kept ------------------------------------------------------

  /** A whole call: it reads, creates if need be, and hands its secret on. */
  function Whole(pid: nat, version: Option<nat>, random: string, keys: Data): seq<Action> {
    [Submit(pid, version, random), Create(pid, keys), Credential(pid), Provision(pid)]
  }

  function AfterWhole(s: State, pid: nat, version: Option<nat>, random: string, keys: Data): State {
    Apply(Apply(Apply(Apply(s, Submit(pid, version, random)), Create(pid, keys)), Credential(pid)), Provision(pid))
  }

  lemma WholeExecutes(s: State, pid: nat, version: Option<nat>, random: string, keys: Data)
    ensures Execute(s, Whole(pid, version, random, keys)) == AfterWhole(s, pid, version, random, keys)
  {
    hide Apply;
    var a, b, c, d := Submit(pid, version, random), Create(pid, keys), Credential(pid), Provision(pid);
    assert [a, b, c, d] == [a] + ([b] + ([c] + [d]));
    ExecuteConcat(s, [a], [b] + ([c] + [d]));
    ExecuteConcat(Apply(s, a), [b], [c] + [d]);
    ExecuteConcat(Apply(Apply(s, a), b), [c], [d]);
    ExecuteOne(s, a);
    ExecuteOne(Apply(s, a), b);
    ExecuteOne(Apply(Apply(s, a), b), c);
    ExecuteOne(Apply(Apply(Apply(s, a), b), c), d);
  }

  lemma ExecuteOne(s: State, a: Action)
    ensures Execute(s, [a]) == Apply(s, a)
  {
    hide Apply;
    assert [a][1..] == [];
    assert Execute(Apply(s, a), []) == Apply(s, a);
  }

  /** What a call does with the secret it holds. */
  lemma HandsOn(s: State, secret: string)
    requires s.calls == map[0 := Holding(secret)]
    ensures Apply(Apply(s, Credential(0)), Provision(0)) ==
            State(s.bindings, s.present, map[], s.credentials + [secret], s.uses + [secret])
  {
    hide Seen, CreateCall;
    var t := Apply(s, Credential(0));
    assert t.calls == map[0 := Credentialed(secret)];
    assert t.calls - {0} == map[];
  }

  lemma CreatesFirst(s: State, random: string, keys: Data)
    requires s.calls == map[] && !s.present
    ensures Apply(Apply(s, Submit(0, None, random)), Create(0, keys)) ==
            State(s.bindings + [BindingData(random, keys)], true, map[0 := Holding(random)], s.credentials, s.uses)
  {
    hide BindingData, SecretOf;
    var t := Apply(s, Submit(0, None, random));
    assert t == s.(calls := map[0 := Creating(random)]);
  }

  lemma ReadsFirst(s: State, version: nat)
    requires s.calls == map[] && version < |s.bindings|
    ensures Apply(Apply(s, Submit(0, Some(version), "")), Create(0, map[])) ==
            s.(calls := map[0 := Holding(SecretOf(s.bindings[version]))])
  {
    hide SecretOf, CreateCall;
    var t := Apply(s, Submit(0, Some(version), ""));
    assert t == s.(calls := map[0 := Holding(SecretOf(s.bindings[version]))]);
  }

  /** The first call for a component. */
  lemma WholeCreates(s: State, random: string, keys: Data)
    requires s.calls == map[] && !s.present
    ensures Execute(s, Whole(0, None, random, keys)) ==
            State(s.bindings + [BindingData(random, keys)], true, map[], s.credentials + [random], s.uses + [random])
  {
    hide Apply, Execute, BindingData;
    WholeExecutes(s, 0, None, random, keys);
    CreatesFirst(s, random, keys);
    HandsOn(Apply(Apply(s, Submit(0, None, random)), Create(0, keys)), random);
  }

  /** A call over a cached binding. */
  lemma WholeReads(s: State, version: nat)
    requires s.calls == map[] && version < |s.bindings|
    ensures var secret := SecretOf(s.bindings[version]);
      Execute(s, Whole(0, Some(version), "", map[])) ==
      State(s.bindings, s.present, map[], s.credentials + [secret], s.uses + [secret])
  {
    hide Apply, Execute, SecretOf;
    WholeExecutes(s, 0, Some(version), "", map[]);
    ReadsFirst(s, version);
    HandsOn(Apply(Apply(s, Submit(0, Some(version), "")), Create(0, map[])), SecretOf(s.bindings[version]));
  }

  const NO_KEYS: Data := map[]
  const FIRST := Whole(0, None, "a", NO_KEYS)
  const SECOND := Whole(0, None, "b", NO_KEYS)
  const GONE := State([BindingData("a", NO_KEYS)], false, map[], ["a"], ["a"])
  const REPLACED := State([BindingData("a", NO_KEYS), BindingData("b", NO_KEYS)], true, map[], ["a", "b"], ["a", "b"])

  lemma BindingIsReplaced()
    ensures Execute(INITIAL, FIRST + [DeleteBinding]) == GONE
    ensures Execute(GONE, SECOND) == REPLACED && Current(REPLACED, "b")
  {
    var one := GONE.(present := true);
    WholeCreates(INITIAL, "a", NO_KEYS);
    assert INITIAL.bindings + [BindingData("a", NO_KEYS)] == one.bindings;
    ExecuteOne(one, DeleteBinding);
    WholeCreates(GONE, "b", NO_KEYS);
    assert GONE.bindings + [BindingData("b", NO_KEYS)] == REPLACED.bindings;
    hide Execute;
    ExecuteConcat(INITIAL, FIRST, [DeleteBinding]);
  }

  const STALE_RUN := FIRST + [DeleteBinding] + SECOND + Whole(0, Some(0), "", NO_KEYS)

  /** A cache that still shows the deleted binding: its secret is handed on while another binding
      is there, and was all that was held. */
  lemma StaleBindingIsUsed()
    ensures Execute(INITIAL, FIRST + [DeleteBinding] + SECOND) == REPLACED && Current(REPLACED, "b")
    ensures var s := Execute(INITIAL, STALE_RUN);
      s.present && s.bindings == REPLACED.bindings && s.uses == ["a", "b", "a"]
  {
    BindingIsReplaced();
    WholeReads(REPLACED, 0);
    hide Execute, Current;
    ExecuteConcat(INITIAL, FIRST + [DeleteBinding], SECOND);
    ExecuteConcat(INITIAL, FIRST + [DeleteBinding] + SECOND, Whole(0, Some(0), "", NO_KEYS));
  }

  const RESERVED: Data := map[GENERATED_SECRET_KEY := "x"]
  const OVERRIDING_RUN := Whole(0, None, "a", RESERVED) + Whole(0, Some(0), "", map[])

  /** A provider whose binding renders the reserved key: the first call hands on the secret it
      generated, every later one what the template rendered, though one binding is there all the
      time. */
  lemma ReservedKeyOverrides()
    ensures var s := Execute(INITIAL, OVERRIDING_RUN);
      s.present && |s.bindings| == 1 && Deletions(INITIAL, OVERRIDING_RUN) == 0 && s.uses == ["a", "x"]
  {
    var none: Data := map[];
    var first, second := Whole(0, None, "a", RESERVED), Whole(0, Some(0), "", none);
    var one := State([BindingData("a", RESERVED)], true, map[], ["a"], ["a"]);
    WholeCreates(INITIAL, "a", RESERVED);
    WholeReads(one, 0);
    NoDeletions(INITIAL, OVERRIDING_RUN);
    hide Execute, Deletions;
    ExecuteConcat(INITIAL, first, second);
  }

  lemma {:induction false} NoDeletions(s: State, run: seq<Action>)
    requires forall a | a in run :: !a.DeleteBinding?
    ensures Deletions(s, run) == 0
    decreases |run|
  {
    hide Apply;
    if run != [] { NoDeletions(Apply(s, run[0]), run[1..]); }
  }
}
