/**
  ensureInstanceSecret: one Secret, written by any number of reconciles at a time over cached
  reads of any age, each with the provider spec it read. Updates carry the version that was
  read, creation fails when the Secret is there.
 */
module InstanceSecret {
  import opened Wrappers

  /** A key's value is generated once, or given by the spec. */
  datatype KeySpec = Generate | Value(value: string)

  type Spec = map<string, KeySpec>

  type Data = map<string, string>

  /** The data a reconcile wants, with random(k) for a value that it generates. */
  function Desired(existing: Option<Data>, spec: Spec, random: string -> string): Data {
    map k | k in spec ::
      match spec[k]
      case Value(v) => v
      case Generate => if existing.Some? && k in existing.value then existing.value[k] else random(k)
  }

  /** The loop over the spec's keys, in any order. */
  method FillData(existing: Option<Data>, spec: Spec, random: string -> string) returns (data: Data)
    ensures data == Desired(existing, spec, random)
  {
    data := map[];
    var keys := spec.Keys;
    while keys != {}
      invariant keys <= spec.Keys && data.Keys == spec.Keys - keys
      invariant forall k | k in data :: data[k] == Desired(existing, spec, random)[k]
      decreases keys
    {
      var key :| key in keys;
      keys := keys - {key};
      match spec[key] {
        case Value(v) => data := data[key := v];
        case Generate =>
          if existing.Some? && key in existing.value {
            data := data[key := existing.value[key]];
          } else {
            data := data[key := random(key)];
          }
      }
    }
  }

  /** A content of the Secret, and the spec of the reconcile that wrote it. */
  datatype Content = Content(data: Data, spec: Spec)

  /** A reconcile that has read: the version, None when the cache had no Secret, and what it
      will write. */
  datatype Writer = Writer(read: Option<nat>, content: Content)

  /** versions holds every content the Secret had; it does not exist before the first. */
  datatype State = State(versions: seq<Content>, writers: map<nat, Writer>)

  datatype Action =
    | Read(pid: nat, version: Option<nat>, spec: Spec, random: map<string, string>)
    | Write(pid: nat)
    | Drop(pid: nat)

  function Random(values: map<string, string>): string -> string {
    k => if k in values then values[k] else ""
  }

  function ReadCall(s: State, pid: nat, version: Option<nat>, spec: Spec, random: map<string, string>): State {
    var seen := if version.Some? && version.value < |s.versions| then Some(s.versions[version.value].data) else None;
    var read := if seen.Some? then version else None;
    s.(writers := s.writers[pid := Writer(read, Content(Desired(seen, spec, Random(random)), spec))])
  }

  function WriteCall(s: State, pid: nat): State
    requires pid in s.writers
  {
    var w := s.writers[pid];
    var current := if s.versions == [] then None else Some(|s.versions| - 1);
    if w.read == current then State(s.versions + [w.content], s.writers - {pid}) else s.(writers := s.writers - {pid})
  }

  function Apply(s: State, a: Action): State {
    match a
    case Read(pid, version, spec, random) => if pid in s.writers then s else ReadCall(s, pid, version, spec, random)
    case Write(pid) => if pid in s.writers then WriteCall(s, pid) else s
    case Drop(pid) => s.(writers := s.writers - {pid})
  }

  function Execute(s: State, run: seq<Action>): State
    decreases |run|
  {
    if run == [] then s else Execute(Apply(s, run[0]), run[1..])
  }

  const INITIAL := State([], map[])

  /** From one content to the next: the spec's values are there, and what is generated before
      and after is not generated anew. */
  predicate Succeeds(before: Option<Data>, after: Content) {
    && after.data.Keys == after.spec.Keys
    && (forall k | k in after.spec && after.spec[k].Value? :: after.data[k] == after.spec[k].value)
    && (before.Some? ==>
          forall k | k in after.spec && after.spec[k].Generate? && k in before.value ::
            after.data[k] == before.value[k])
  }

  function Prior(versions: seq<Content>, i: nat): Option<Data>
    requires i <= |versions|
  {
    if i == 0 then None else Some(versions[i - 1].data)
  }

  ghost predicate Steady(versions: seq<Content>) {
    forall i | 0 <= i < |versions| :: Succeeds(Prior(versions, i), versions[i])
  }

  predicate WriterSound(versions: seq<Content>, w: Writer) {
    match w.read
    case None => Succeeds(None, w.content)
    case Some(i) => i < |versions| && Succeeds(Some(versions[i].data), w.content)
  }

  ghost predicate Inv(s: State) {
    Steady(s.versions) && forall pid | pid in s.writers :: WriterSound(s.versions, s.writers[pid])
  }

  lemma DesiredSucceeds(existing: Option<Data>, spec: Spec, random: string -> string)
    ensures Succeeds(existing, Content(Desired(existing, spec, random), spec))
  {
  }

  lemma WriterStaysSound(versions: seq<Content>, more: seq<Content>, w: Writer)
    requires WriterSound(versions, w) && versions <= more
    ensures WriterSound(more, w)
  {
    hide Succeeds;
  }

  lemma ReadKeepsInv(s: State, pid: nat, version: Option<nat>, spec: Spec, random: map<string, string>)
    requires Inv(s)
    ensures Inv(ReadCall(s, pid, version, spec, random))
  {
    hide Desired, Succeeds, Random;
    var seen := if version.Some? && version.value < |s.versions| then Some(s.versions[version.value].data) else None;
    DesiredSucceeds(seen, spec, Random(random));
    var t := ReadCall(s, pid, version, spec, random);
    forall q | q in t.writers ensures WriterSound(t.versions, t.writers[q]) {
      if q != pid { assert WriterSound(s.versions, s.writers[q]); }
    }
  }

  lemma SteadyGrows(versions: seq<Content>, c: Content)
    requires Steady(versions) && Succeeds(Prior(versions, |versions|), c)
    ensures Steady(versions + [c])
  {
    hide Succeeds;
    var more := versions + [c];
    forall i | 0 <= i < |more| ensures Succeeds(Prior(more, i), more[i]) {
      if i < |versions| { assert Succeeds(Prior(versions, i), versions[i]) && Prior(more, i) == Prior(versions, i); }
    }
  }

  lemma WriteKeepsInv(s: State, pid: nat)
    requires Inv(s) && pid in s.writers
    ensures Inv(WriteCall(s, pid)) && s.versions <= WriteCall(s, pid).versions
  {
    hide Succeeds, Steady;
    var t := WriteCall(s, pid);
    assert WriterSound(s.versions, s.writers[pid]);
    if t.versions != s.versions { SteadyGrows(s.versions, s.writers[pid].content); }
    forall q | q in t.writers ensures WriterSound(t.versions, t.writers[q]) {
      assert WriterSound(s.versions, s.writers[q]);
      WriterStaysSound(s.versions, t.versions, s.writers[q]);
    }
  }

  lemma StepKeepsInv(s: State, a: Action)
    requires Inv(s)
    ensures Inv(Apply(s, a)) && s.versions <= Apply(s, a).versions
  {
    hide Steady, WriterSound, WriteCall;
    match a {
      case Read(pid, version, spec, random) => if pid !in s.writers { ReadKeepsInv(s, pid, version, spec, random); }
      case Write(pid) => if pid in s.writers { WriteKeepsInv(s, pid); }
      case Drop(_) =>
    }
  }

  lemma {:induction false} RunKeepsInv(s: State, run: seq<Action>)
    requires Inv(s)
    ensures Inv(Execute(s, run))
    decreases |run|
  {
    hide Inv, Apply;
    if run != [] {
      StepKeepsInv(s, run[0]);
      RunKeepsInv(Apply(s, run[0]), run[1..]);
    }
  }

  /** The key is generated in every content after the i-th, up to the j-th. */
  predicate StaysGenerated(versions: seq<Content>, k: string, i: nat, j: nat)
    requires i <= j < |versions|
  {
    forall m | i < m <= j :: k in versions[m].spec && versions[m].spec[k].Generate?
  }

  lemma {:induction false} KeptOver(versions: seq<Content>, k: string, i: nat, j: nat)
    requires Steady(versions) && i <= j < |versions| && StaysGenerated(versions, k, i, j) && k in versions[i].data
    ensures k in versions[j].data && versions[j].data[k] == versions[i].data[k]
    decreases j
  {
    if i < j {
      KeptOver(versions, k, i, j - 1);
      assert Succeeds(Prior(versions, j), versions[j]);
    }
  }

  /** Generated keys never rotate: over any run, however stale the reads and whatever specs are
      written in between, a key that stays generated keeps its value. */
  lemma GeneratedKeysNeverRotate(run: seq<Action>, k: string, i: nat, j: nat)
    requires i <= j < |Execute(INITIAL, run).versions|
    requires StaysGenerated(Execute(INITIAL, run).versions, k, i, j) && k in Execute(INITIAL, run).versions[i].data
    ensures var versions := Execute(INITIAL, run).versions;
      k in versions[j].data && versions[j].data[k] == versions[i].data[k]
  {
    RunKeepsInv(INITIAL, run);
    hide Execute;
    KeptOver(Execute(INITIAL, run).versions, k, i, j);
  }

  /** The version a cache shows that has caught up. */
  function Latest(s: State): Option<nat> {
    if s.versions == [] then None else Some(|s.versions| - 1)
  }

  /** One reconcile from read to write. */
  function Round(version: Option<nat>, spec: Spec, random: map<string, string>): seq<Action> {
    [Read(0, version, spec, random), Write(0)]
  }

  lemma ExecuteTwo(s: State, a: Action, b: Action)
    ensures Execute(s, [a, b]) == Apply(Apply(s, a), b)
  {
    hide Apply;
    assert [a, b][1..] == [b] && [b][1..] == [];
    assert Execute(Apply(s, a), [b]) == Execute(Apply(Apply(s, a), b), []);
  }

  lemma RoundWrites(s: State, version: Option<nat>, spec: Spec, random: map<string, string>)
    requires s.writers == map[] && version == Latest(s)
    ensures var seen := if s.versions == [] then None else Some(s.versions[|s.versions| - 1].data);
      Execute(s, Round(version, spec, random)) ==
          State(s.versions + [Content(Desired(seen, spec, Random(random)), spec)], map[])
  {
    hide Desired, Random, Execute;
    ExecuteTwo(s, Read(0, version, spec, random), Write(0));
    assert Apply(s, Read(0, version, spec, random)).writers - {0} == map[];
  }

  const KEY := "key"
  const GENERATE: Spec := map[KEY := Generate]
  const NOTHING: Spec := map[]
  const ROTATION := Round(None, GENERATE, map[KEY := "a"]) + Round(Some(0), NOTHING, map[])
                    + Round(Some(1), GENERATE, map[KEY := "b"])
  const ONE := State([Content(map[KEY := "a"], GENERATE)], map[])
  const TWO := State(ONE.versions + [Content(map[], NOTHING)], map[])

  /** It has to stay: a key that leaves the spec and comes back is generated anew. */
  lemma ReturningKeyRotates()
    ensures var versions := Execute(INITIAL, ROTATION).versions;
      |versions| == 3 && versions[0].data == map[KEY := "a"] && versions[2].data == map[KEY := "b"]
  {
    var first, second := Round(None, GENERATE, map[KEY := "a"]), Round(Some(0), NOTHING, map[]);
    var third := Round(Some(1), GENERATE, map[KEY := "b"]);
    FirstRound();
    SecondRound();
    ThirdRound();
    hide Execute;
    ExecuteConcat(INITIAL, first, second);
    ExecuteConcat(INITIAL, first + second, third);
  }

  lemma FirstRound()
    ensures Execute(INITIAL, Round(None, GENERATE, map[KEY := "a"])) == ONE
  {
    hide Execute;
    RoundWrites(INITIAL, None, GENERATE, map[KEY := "a"]);
    assert Desired(None, GENERATE, Random(map[KEY := "a"])) == map[KEY := "a"];
  }

  lemma SecondRound()
    ensures Execute(ONE, Round(Some(0), NOTHING, map[])) == TWO
  {
    hide Execute;
    RoundWrites(ONE, Some(0), NOTHING, map[]);
    assert Desired(Some(map[KEY := "a"]), NOTHING, Random(map[])) == map[];
  }

  lemma ThirdRound()
    ensures Execute(TWO, Round(Some(1), GENERATE, map[KEY := "b"])) ==
            State(TWO.versions + [Content(map[KEY := "b"], GENERATE)], map[])
  {
    hide Execute;
    RoundWrites(TWO, Some(1), GENERATE, map[KEY := "b"]);
    assert Desired(Some(map[]), GENERATE, Random(map[KEY := "b"])) == map[KEY := "b"];
  }

  predicate Generates(spec: Spec, k: string) {
    k in spec && spec[k].Generate?
  }

  /** The m-th of the specs is the last one that does not generate the key. */
  predicate LastOther(specs: seq<Spec>, k: string, m: nat)
    requires m < |specs|
  {
    !Generates(specs[m], k) && forall l | m < l < |specs| :: Generates(specs[l], k)
  }

  /** The last of the specs that does not generate the key, if there is one, gives it `x`. */
  predicate LastGives(specs: seq<Spec>, k: string, x: string) {
    forall m | 0 <= m < |specs| && LastOther(specs, k, m) :: k in specs[m] && specs[m][k] == Value(x)
  }

  /** Reconciles one after the other, each over the Secret as the one before left it. */
  function Rounds(s: State, specs: seq<Spec>, random: string): seq<Action>
    decreases |specs|
  {
    if specs == [] then []
    else
      var round := Round(Latest(s), specs[0], map k | k in specs[0] :: random);
      round + Rounds(Execute(s, round), specs[1..], random)
  }

  /** The data after them: `random` is what every generated value comes out as. */
  function Replay(data: Data, specs: seq<Spec>, random: string): Data
    decreases |specs|
  {
    if specs == [] then data else Replay(Desired(Some(data), specs[0], Constant(specs[0], random)), specs[1..], random)
  }

  function Constant(spec: Spec, random: string): string -> string {
    Random(map k | k in spec :: random)
  }

  lemma {:induction false} RoundsReplay(s: State, specs: seq<Spec>, random: string)
    requires s.writers == map[] && s.versions != []
    ensures var t := Execute(s, Rounds(s, specs, random));
      && t.writers == map[] && |t.versions| == |s.versions| + |specs|
      && t.versions[|t.versions| - 1].data == Replay(s.versions[|s.versions| - 1].data, specs, random)
    decreases |specs|
  {
    hide Desired, Apply, Constant;
    if specs != [] {
      var values := map k | k in specs[0] :: random;
      var round := Round(Latest(s), specs[0], values);
      RoundWrites(s, Latest(s), specs[0], values);
      ConstantIs(specs[0], random);
      var t := Execute(s, round);
      RoundsReplay(t, specs[1..], random);
      ExecuteConcat(s, round, Rounds(t, specs[1..], random));
    }
  }

  lemma ConstantIs(spec: Spec, random: string)
    ensures Constant(spec, random) == Random(map k | k in spec :: random)
  {
  }

  /** One spec and one key. */
  function Kept(before: Option<string>, spec: Spec, k: string, random: string): Option<string> {
    if k !in spec then None
    else match spec[k]
      case Value(v) => Some(v)
      case Generate => if before.Some? then before else Some(random)
  }

  function ValueOf(data: Data, k: string): Option<string> {
    if k in data then Some(data[k]) else None
  }

  function KeyReplay(x: Option<string>, specs: seq<Spec>, k: string, random: string): Option<string>
    decreases |specs|
  {
    if specs == [] then x else KeyReplay(Kept(x, specs[0], k, random), specs[1..], k, random)
  }

  lemma DesiredKey(data: Data, spec: Spec, k: string, random: string)
    ensures ValueOf(Desired(Some(data), spec, Constant(spec, random)), k) == Kept(ValueOf(data, k), spec, k, random)
  {
  }

  lemma {:induction false} ReplayKey(data: Data, specs: seq<Spec>, k: string, random: string)
    ensures ValueOf(Replay(data, specs, random), k) == KeyReplay(ValueOf(data, k), specs, k, random)
    decreases |specs|
  {
    hide Desired, Constant, ValueOf, Kept;
    if specs != [] {
      DesiredKey(data, specs[0], k, random);
      ReplayKey(Desired(Some(data), specs[0], Constant(specs[0], random)), specs[1..], k, random);
    }
  }

  lemma {:induction false} KeyReplayAppends(x: Option<string>, specs: seq<Spec>, last: Spec, k: string, random: string)
    ensures KeyReplay(x, specs + [last], k, random) == Kept(KeyReplay(x, specs, k, random), last, k, random)
    decreases |specs|
  {
    hide Kept;
    if specs == [] {
      assert (specs + [last])[1..] == [];
    } else {
      assert (specs + [last])[1..] == specs[1..] + [last] && (specs + [last])[0] == specs[0];
      KeyReplayAppends(Kept(x, specs[0], k, random), specs[1..], last, k, random);
    }
  }

  /** The key keeps `x` for one random value that is not `x`, exactly when it keeps it for all. */
  lemma {:induction false} KeyKeeps(x: string, specs: seq<Spec>, k: string, random: string)
    ensures LastGives(specs, k, x) ==> KeyReplay(Some(x), specs, k, random) == Some(x)
    ensures random != x && KeyReplay(Some(x), specs, k, random) == Some(x) ==> LastGives(specs, k, x)
    decreases |specs|
  {
    if specs != [] {
      var init, last := specs[..|specs| - 1], specs[|specs| - 1];
      assert specs == init + [last];
      KeyKeeps(x, init, k, random);
      KeyReplayAppends(Some(x), init, last, k, random);
      LastGivesAppends(init, last, k, x);
    }
  }

  lemma LastGivesAppends(specs: seq<Spec>, last: Spec, k: string, x: string)
    ensures LastGives(specs + [last], k, x) <==>
            if Generates(last, k) then LastGives(specs, k, x) else k in last && last[k] == Value(x)
  {
    hide Generates;
    var all := specs + [last];
    assert all[|specs|] == last;
    if Generates(last, k) {
      forall m: nat | m < |specs| ensures all[m] == specs[m] && (LastOther(all, k, m) <==> LastOther(specs, k, m)) {
        assert forall l | m < l < |specs| :: all[l] == specs[l];
      }
    } else {
      assert LastOther(all, k, |specs|);
      forall m: nat | m < |specs| ensures !LastOther(all, k, m) {}
    }
  }

  predicate LastHas(s: State, k: string, x: string) {
    s.versions != [] && ValueOf(s.versions[|s.versions| - 1].data, k) == Some(x)
  }

  /** A key keeps its value, whatever values are generated, over exactly those reconciles of which
      the last one that does not generate the key, if any, gives it this very value. */
  lemma ValueIsKeptExactlyWhen(s: State, specs: seq<Spec>, k: string)
    requires s.writers == map[] && s.versions != [] && k in s.versions[|s.versions| - 1].data
    ensures var x := s.versions[|s.versions| - 1].data[k];
      (forall random :: LastHas(Execute(s, Rounds(s, specs, random)), k, x)) <==> LastGives(specs, k, x)
  {
    hide *;
    var x := s.versions[|s.versions| - 1].data[k];
    if LastGives(specs, k, x) {
      forall random ensures LastHas(Execute(s, Rounds(s, specs, random)), k, x) {
        LastHasIs(s, specs, k, random);
        KeyKeeps(x, specs, k, random);
      }
    } else {
      var random := x + "0";
      LastHasIs(s, specs, k, random);
      KeyKeeps(x, specs, k, random);
      assert !LastHas(Execute(s, Rounds(s, specs, random)), k, x);
    }
  }

  lemma LastHasIs(s: State, specs: seq<Spec>, k: string, random: string)
    requires s.writers == map[] && s.versions != [] && k in s.versions[|s.versions| - 1].data
    ensures var x := s.versions[|s.versions| - 1].data[k];
      LastHas(Execute(s, Rounds(s, specs, random)), k, x) <==> KeyReplay(Some(x), specs, k, random) == Some(x)
  {
    hide Execute, Rounds, Replay, KeyReplay;
    RoundsReplay(s, specs, random);
    ReplayKey(s.versions[|s.versions| - 1].data, specs, k, random);
  }

  /** The Secret has exactly the keys of the spec last written, and its values. */
  lemma ValuesFollowTheSpec(run: seq<Action>)
    requires Execute(INITIAL, run).versions != []
    ensures var versions := Execute(INITIAL, run).versions;
      var last := versions[|versions| - 1];
      && last.data.Keys == last.spec.Keys
      && forall k | k in last.spec && last.spec[k].Value? :: last.data[k] == last.spec[k].value
  {
    RunKeepsInv(INITIAL, run);
    hide Execute;
    var versions := Execute(INITIAL, run).versions;
    assert Succeeds(Prior(versions, |versions| - 1), versions[|versions| - 1]);
  }

  // ---- as it runs --------------------------------------------------------------------------

  predicate Foreign(run: seq<Action>, pid: nat) {
    forall a | a in run :: a.pid != pid
  }

  predicate SameWriter(s: State, t: State, pid: nat) {
    (pid in s.writers <==> pid in t.writers) && (pid in s.writers ==> s.writers[pid] == t.writers[pid])
  }

  lemma {:induction false} ForeignRun(s: State, run: seq<Action>, pid: nat)
    requires Foreign(run, pid)
    ensures SameWriter(s, Execute(s, run), pid)
    decreases |run|
  {
    if run != [] {
      assert run[0] in run;
      assert SameWriter(s, Apply(s, run[0]), pid);
      hide Apply;
      ForeignRun(Apply(s, run[0]), run[1..], pid);
    }
  }

  lemma {:induction false} ExecuteConcat(s: State, a: seq<Action>, b: seq<Action>)
    ensures Execute(s, a + b) == Execute(Execute(s, a), b)
    decreases |a|
  {
    hide Apply;
    if a == [] {
      assert a + b == b;
    } else {
      assert (a + b)[1..] == a[1..] + b;
      ExecuteConcat(Apply(s, a[0]), a[1..], b);
    }
  }

  class Server {
    var state: State
    ghost var log: seq<Action>

    ghost predicate Valid()
      reads this
    {
      state == Execute(INITIAL, log)
    }

    constructor ()
      ensures Valid() && log == []
    {
      state, log := INITIAL, [];
    }

    method Do(a: Action)
      requires Valid()
      modifies this
      ensures Valid() && log == old(log) + [a] && state == Apply(old(state), a)
    {
      hide Apply;
      ExecuteConcat(INITIAL, log, [a]);
      state := Apply(state, a);
      log := log + [a];
    }

    method Others(run: seq<Action>, pid: nat)
      requires Valid() && Foreign(run, pid)
      modifies this
      ensures Valid() && log == old(log) + run && SameWriter(old(state), state, pid)
      ensures state == Execute(old(state), run)
      ensures run == [] ==> state == old(state)
    {
      ExecuteConcat(INITIAL, log, run);
      ForeignRun(state, run, pid);
      state := Execute(state, run);
      log := log + run;
    }
  }

  predicate WritesLast(versions: seq<Content>, spec: Spec, random: map<string, string>) {
    && versions != []
    && var last := |versions| - 1;
    && versions[last] == Content(Desired(Prior(versions, last), spec, Random(random)), spec)
  }

  /** One reconcile over a cached read, with others between its read and its write. It succeeds
      only with the write of what it read, untouched since, and of this spec. */
  method EnsureInstanceSecret(server: Server, pid: nat, version: Option<nat>, spec: Option<Spec>,
                              random: map<string, string>, others: seq<Action>)
    returns (ok: bool)
    requires server.Valid() && pid !in server.state.writers && Foreign(others, pid)
    modifies server
    ensures server.Valid() && old(server.log) <= server.log
    ensures ok && spec.Some? ==> WritesLast(server.state.versions, spec.value, random)
    ensures spec.None? ==> ok && server.state == old(server.state)
    ensures others == [] && version == Latest(old(server.state)) ==> ok
  {
    hide Execute, Desired, Random, WritesLast, WriteCall;
    if spec.None? { return true; }
    var found := version.Some? && version.value < |server.state.versions|;
    var existing := if found then Some(server.state.versions[version.value].data) else None;
    var data := FillData(existing, spec.value, Random(random));
    server.Do(Read(pid, version, spec.value, random));
    ghost var before := server.state;
    server.Others(others, pid);
    VersionsGrow(before, others);
    ok := if found then version.value == |server.state.versions| - 1 else server.state.versions == [];
    if ok { WriteLands(server.state, pid, if found then version else None, existing, spec.value, random); }
    server.Do(Write(pid));
  }

  /** A write over an untouched content. */
  lemma WriteLands(s: State, pid: nat, read: Option<nat>, existing: Option<Data>, spec: Spec, random: map<string,
          string>)
    requires pid in s.writers && s.writers[pid] == Writer(read, Content(Desired(existing, spec, Random(random)), spec))
    requires read == Latest(s) && existing == Prior(s.versions, |s.versions|)
    ensures WritesLast(Apply(s, Write(pid)).versions, spec, random)
  {
    hide Desired, Random;
  }

  lemma {:induction false} VersionsGrow(s: State, run: seq<Action>)
    ensures s.versions <= Execute(s, run).versions
    decreases |run|
  {
    if run != [] {
      assert s.versions <= Apply(s, run[0]).versions;
      hide Apply;
      VersionsGrow(Apply(s, run[0]), run[1..]);
    }
  }
}
