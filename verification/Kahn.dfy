/** BuildLevels: Kahn's algorithm, one level at a time. */
module Kahn {
  import opened Wrappers
  import opened Template
  import opened DependencyGraph

  datatype GraphError = Duplicated | Unknown | Cycle

  type Index = map<string, ComponentSpec>

  /** The entries of `deps` outside `done`, counted as often as they are listed. */
  function Pending(deps: seq<string>, done: set<string>): nat {
    if deps == [] then 0
    else Pending(deps[..|deps| - 1], done) + (if deps[|deps| - 1] in done then 0 else 1)
  }

  lemma {:induction false} PendingZero(deps: seq<string>, done: set<string>)
    ensures Pending(deps, done) == 0 <==> forall d | d in deps :: d in done
  {
    if deps != [] {
      PendingZero(deps[..|deps| - 1], done);
      assert deps == deps[..|deps| - 1] + [deps[|deps| - 1]];
    }
  }

  lemma {:induction false} PendingStep(deps: seq<string>, done: set<string>, d: string)
    requires d !in done
    ensures Pending(deps, done) == Pending(deps, done + {d}) + multiset(deps)[d]
  {
    if deps != [] {
      PendingStep(deps[..|deps| - 1], done, d);
      assert deps == deps[..|deps| - 1] + [deps[|deps| - 1]];
    }
  }

  lemma {:induction false} PendingAll(deps: seq<string>)
    ensures Pending(deps, {}) == |deps|
  {
    if deps != [] { PendingAll(deps[..|deps| - 1]); }
  }

  predicate NoRepeats(q: seq<string>) {
    forall i, j | 0 <= i < j < |q| :: q[i] != q[j]
  }

  function Elements(q: seq<string>): set<string> {
    set x | x in q
  }

  function Dependents(adjacency: map<string, seq<string>>, d: string): seq<string> {
    if d in adjacency then adjacency[d] else []
  }

  /** adjacency lists `x` under `d` as often as `x` lists `d`. */
  ghost predicate Linked(byName: Index, adjacency: map<string, seq<string>>) {
    forall d | d in byName ::
      && (forall x | x in byName :: multiset(Dependents(adjacency, d))[x] == multiset(byName[x].dependsOn)[d])
      && (forall x | x in Dependents(adjacency, d) :: x in byName)
  }

  ghost predicate Counted(byName: Index, inDegree: map<string, int>, done: set<string>) {
    && inDegree.Keys == byName.Keys
    && (forall x | x in byName :: inDegree[x] == Pending(byName[x].dependsOn, done))
  }

  ghost predicate Released(byName: Index, inDegree: map<string, int>, front: set<string>) {
    forall x | x in front :: x in byName && x in inDegree && inDegree[x] == 0
  }

  /** The in-degrees once `done` is processed. */
  ghost predicate Degrees(byName: Index, inDegree: map<string, int>, done: set<string>) {
    Counted(byName, inDegree, done) && Released(byName, inDegree, done)
  }

  /** The queue holds, once each, the components that wait for nothing any more. */
  ghost predicate Frontier(byName: Index, inDegree: map<string, int>, done: set<string>, queue: seq<string>) {
    && inDegree.Keys == byName.Keys
    && NoRepeats(queue)
    && (forall x :: x in queue <==> x in byName && x !in done && inDegree[x] == 0)
  }

  lemma DischargeStep(byName: Index, inDegree: map<string, int>, front: set<string>, queue: seq<string>, dep: string)
    requires Frontier(byName, inDegree, front, queue) && Released(byName, inDegree, front)
    requires dep in byName && inDegree[dep] > 0
    ensures var inDegree' := inDegree[dep := inDegree[dep] - 1];
      && Released(byName, inDegree', front)
      && Frontier(byName, inDegree', front, if inDegree'[dep] == 0 then queue + [dep] else queue)
  {
    assert dep !in queue;
  }

  /** One dependency of everybody in `dependents` is met: counts down, and appends to the
      queue who reaches zero. `front` is the part of the queue being processed. */
  method Discharge(byName: Index, dependents: seq<string>, queue0: seq<string>, inDegree0: map<string, int>,
                   ghost front: set<string>)
    returns (queue: seq<string>, inDegree: map<string, int>)
    requires Frontier(byName, inDegree0, front, queue0)
    requires forall x | x in dependents :: x in byName
    requires forall x | x in byName :: inDegree0[x] >= multiset(dependents)[x]
    requires Released(byName, inDegree0, front)
    ensures Frontier(byName, inDegree, front, queue) && Released(byName, inDegree, front)
    ensures inDegree.Keys == byName.Keys
    ensures forall x | x in byName :: inDegree[x] == inDegree0[x] - multiset(dependents)[x]
  {
    queue, inDegree := queue0, inDegree0;
    assert inDegree.Keys == byName.Keys;
    hide Frontier, Released;
    for m := 0 to |dependents|
      invariant inDegree.Keys == byName.Keys
      invariant Frontier(byName, inDegree, front, queue) && Released(byName, inDegree, front)
      invariant forall x | x in byName :: inDegree[x] == inDegree0[x] - multiset(dependents[..m])[x]
    {
      var dep := dependents[m];
      assert dependents[..m + 1] == dependents[..m] + [dep];
      assert dependents == dependents[..m + 1] + dependents[m + 1..];
      assert inDegree[dep] > 0;
      DischargeStep(byName, inDegree, front, queue, dep);
      inDegree := inDegree[dep := inDegree[dep] - 1];
      if inDegree[dep] == 0 {
        queue := queue + [dep];
      }
    }
    assert dependents[..|dependents|] == dependents;
  }

  lemma PendingStepAll(byName: Index, adjacency: map<string, seq<string>>, before: set<string>, name: string)
    requires Linked(byName, adjacency) && name in byName && name !in before
    ensures forall x | x in byName ::
      Pending(byName[x].dependsOn, before + {name}) ==
      Pending(byName[x].dependsOn, before) - multiset(Dependents(adjacency, name))[x]
    ensures forall x | x in Dependents(adjacency, name) :: x in byName
  {
    forall x | x in byName
      ensures Pending(byName[x].dependsOn, before + {name}) ==
              Pending(byName[x].dependsOn, before) - multiset(Dependents(adjacency, name))[x]
    {
      PendingStep(byName[x].dependsOn, before, name);
    }
  }

  /** What is processed once the first `k` of the queue are. */
  function SoFar(done: set<string>, queue: seq<string>, k: nat): set<string>
    requires k <= |queue|
  {
    done + Elements(queue[..k])
  }

  lemma SoFarStep(done: set<string>, queue: seq<string>, k: nat)
    requires k < |queue| && NoRepeats(queue) && queue[k] !in done
    ensures SoFar(done, queue, k + 1) == SoFar(done, queue, k) + {queue[k]}
    ensures queue[k] !in SoFar(done, queue, k)
  {
    assert queue[..k + 1] == queue[..k] + [queue[k]];
  }

  /** queue[k] of the level is processed. */
  method Process(byName: Index, adjacency: map<string, seq<string>>, level: seq<string>, k: nat,
                 queue0: seq<string>, inDegree0: map<string, int>, ghost done: set<string>)
    returns (queue: seq<string>, inDegree: map<string, int>)
    requires Linked(byName, adjacency) && k < |level| && level[k] in byName
    requires NoRepeats(level) && level[k] !in done
    requires Counted(byName, inDegree0, SoFar(done, level, k))
    requires Released(byName, inDegree0, SoFar(done, level, |level|))
    requires Frontier(byName, inDegree0, SoFar(done, level, |level|), queue0)
    ensures Counted(byName, inDegree, SoFar(done, level, k + 1))
    ensures Released(byName, inDegree, SoFar(done, level, |level|))
    ensures Frontier(byName, inDegree, SoFar(done, level, |level|), queue)
  {
    SoFarStep(done, level, k);
    CanDischarge(byName, adjacency, inDegree0, SoFar(done, level, k), level[k]);
    hide Pending, Linked, SoFar, Counted, Released, Frontier, NoRepeats, Dependents;
    queue, inDegree :=
      Discharge(byName, Dependents(adjacency, level[k]), queue0, inDegree0, SoFar(done, level, |level|));
    CountedStep(byName, adjacency, inDegree0, inDegree, SoFar(done, level, k), level[k]);
  }

  lemma CanDischarge(byName: Index, adjacency: map<string, seq<string>>, inDegree: map<string, int>,
                     before: set<string>, name: string)
    requires Linked(byName, adjacency) && name in byName && name !in before && Counted(byName, inDegree, before)
    ensures inDegree.Keys == byName.Keys
    ensures forall x | x in Dependents(adjacency, name) :: x in byName
    ensures forall x | x in byName :: inDegree[x] >= multiset(Dependents(adjacency, name))[x]
  {
    PendingStepAll(byName, adjacency, before, name);
    hide Linked, Pending, Dependents;
  }

  lemma CountedStep(byName: Index, adjacency: map<string, seq<string>>, inDegree0: map<string, int>,
                    inDegree: map<string, int>, before: set<string>, name: string)
    requires Linked(byName, adjacency) && name in byName && name !in before
    requires Counted(byName, inDegree0, before) && inDegree.Keys == byName.Keys
    requires forall x | x in byName :: inDegree[x] == inDegree0[x] - multiset(Dependents(adjacency, name))[x]
    ensures Counted(byName, inDegree, before + {name})
  {
    PendingStepAll(byName, adjacency, before, name);
    hide Linked, Pending, Dependents;
  }

  lemma LevelStarts(byName: Index, inDegree: map<string, int>, done: set<string>, level: seq<string>)
    requires Degrees(byName, inDegree, done) && Frontier(byName, inDegree, done, level)
    ensures SoFar(done, level, 0) == done && SoFar(done, level, |level|) == done + Elements(level)
    ensures Frontier(byName, inDegree, done + Elements(level), [])
    ensures Released(byName, inDegree, done + Elements(level))
    ensures forall i | 0 <= i < |level| :: level[i] in byName && level[i] !in done
    ensures NoRepeats(level)
  {
    assert level[..|level|] == level;
    assert forall i | 0 <= i < |level| :: level[i] in level;
  }

  ghost predicate Resolves(byName: Index, names: seq<string>, level: seq<ComponentSpec>) {
    |level| == |names| && forall i | 0 <= i < |level| :: names[i] in byName && level[i] == byName[names[i]]
  }

  lemma ResolvesOneMore(byName: Index, names: seq<string>, k: nat, level: seq<ComponentSpec>)
    requires k < |names| && names[k] in byName && Resolves(byName, names[..k], level)
    ensures Resolves(byName, names[..k + 1], level + [byName[names[k]]])
  {
  }

  /** The pass over queue[:levelSize]. */
  method TakeLevel(byName: Index, adjacency: map<string, seq<string>>, queue0: seq<string>,
                   inDegree0: map<string, int>, ghost done: set<string>)
    returns (level: seq<ComponentSpec>, queue: seq<string>, inDegree: map<string, int>)
    requires Linked(byName, adjacency) && Degrees(byName, inDegree0, done)
    requires Frontier(byName, inDegree0, done, queue0)
    ensures Resolves(byName, queue0, level)
    ensures Degrees(byName, inDegree, done + Elements(queue0))
    ensures Frontier(byName, inDegree, done + Elements(queue0), queue)
  {
    level, queue, inDegree := [], [], inDegree0;
    LevelStarts(byName, inDegree0, done, queue0);
    assert Resolves(byName, queue0[..0], level);
    hide Linked, Counted, Released, Frontier, Elements, Pending, SoFar, NoRepeats, Resolves;
    for k := 0 to |queue0|
      invariant Resolves(byName, queue0[..k], level)
      invariant Counted(byName, inDegree, SoFar(done, queue0, k))
      invariant Released(byName, inDegree, SoFar(done, queue0, |queue0|))
      invariant Frontier(byName, inDegree, SoFar(done, queue0, |queue0|), queue)
    {
      ResolvesOneMore(byName, queue0, k, level);
      level := level + [byName[queue0[k]]];
      queue, inDegree := Process(byName, adjacency, queue0, k, queue, inDegree, done);
    }
    assert queue0[..|queue0|] == queue0;
  }

  ghost predicate Indexed(cs: seq<ComponentSpec>, byName: Index) {
    && byName.Keys == Names(cs)
    && (forall i | 0 <= i < |cs| :: cs[i].name in byName && byName[cs[i].name] == cs[i])
    && (forall x | x in byName :: byName[x] in cs && byName[x].name == x)
  }

  lemma IndexedDependsOn(cs: seq<ComponentSpec>, byName: Index, x: string, y: string)
    requires Indexed(cs, byName)
    ensures DependsOn(cs, x, y) <==> x in byName && y in byName[x].dependsOn
  {
    if x in byName && y in byName[x].dependsOn {
      var i :| 0 <= i < |cs| && cs[i] == byName[x];
      assert cs[i].name == x && y in cs[i].dependsOn;
    }
  }

  predicate Holds(level: seq<ComponentSpec>, x: string) {
    exists i | 0 <= i < |level| :: level[i].name == x
  }

  ghost predicate LevelSound(cs: seq<ComponentSpec>, level: seq<ComponentSpec>, l: nat, rank: map<string, nat>) {
    && level != [] && UniqueNames(level)
    && (forall i | 0 <= i < |level| :: level[i] in cs && level[i].name in rank && rank[level[i].name] == l)
  }

  /** The levels built so far; rank gives the level of each component in them. */
  ghost predicate Ranked(cs: seq<ComponentSpec>, levels: seq<seq<ComponentSpec>>, rank: map<string, nat>) {
    && (forall l | 0 <= l < |levels| :: LevelSound(cs, levels[l], l, rank))
    && (forall x | x in rank :: rank[x] < |levels| && Holds(levels[rank[x]], x))
    && (forall x | x in rank :: Longest(cs, x, rank[x]))
  }

  ghost predicate NeedsOneAt(deps: seq<string>, rank: map<string, nat>, l: nat) {
    exists d :: d in deps && d in rank && rank[d] == l
  }

  /** Whoever waits next has a dependency in the level before. */
  ghost predicate HangsOn(byName: Index, rank: map<string, nat>, queue: seq<string>, depth: nat) {
    forall x | x in queue :: x in byName
      && (forall d | d in byName[x].dependsOn :: d in rank && rank[d] < depth)
      && (depth > 0 ==> NeedsOneAt(byName[x].dependsOn, rank, depth - 1))
  }

  lemma ChainsBounded(cs: seq<ComponentSpec>, byName: Index, rank: map<string, nat>, x: string, depth: nat,
        p: seq<string>)
    requires Indexed(cs, byName) && x in byName && ChainFrom(cs, x, p)
    requires forall d | d in byName[x].dependsOn :: d in rank && rank[d] < depth
    requires forall y | y in rank :: Longest(cs, y, rank[y])
    ensures |p| <= depth + 1
  {
    if |p| > 1 {
      ChainTail(cs, p);
      IndexedDependsOn(cs, byName, x, p[1]);
      hide Indexed, Chain, DependsOn;
      assert ChainFrom(cs, p[1], p[1..]);
    }
  }

  lemma ChainGrows(cs: seq<ComponentSpec>, x: string, d: string, q: seq<string>)
    requires DependsOn(cs, x, d) && x in Names(cs) && ChainFrom(cs, d, q)
    ensures ChainFrom(cs, x, [x] + q)
  {
    hide DependsOn, Names;
    var p := [x] + q;
    forall k | 0 <= k < |p| - 1 ensures DependsOn(cs, p[k], p[k + 1]) {
      if k > 0 { assert DependsOn(cs, q[k - 1], q[k]); }
    }
  }

  lemma ChainReaches(cs: seq<ComponentSpec>, byName: Index, rank: map<string, nat>, x: string, depth: nat)
    returns (p: seq<string>)
    requires Indexed(cs, byName) && x in byName
    requires depth > 0 ==> NeedsOneAt(byName[x].dependsOn, rank, depth - 1)
    requires forall y | y in rank :: Longest(cs, y, rank[y])
    ensures ChainFrom(cs, x, p) && |p| == depth + 1
  {
    IndexedKeys(cs, byName);
    hide Indexed, DependsOn, Names;
    if depth == 0 {
      p := [x];
    } else {
      var d :| d in byName[x].dependsOn && d in rank && rank[d] == depth - 1;
      var q :| ChainFrom(cs, d, q) && |q| == depth;
      IndexedDependsOn(cs, byName, x, d);
      hide ChainFrom;
      ChainGrows(cs, x, d, q);
      p := [x] + q;
    }
  }

  /** A component all of whose dependencies are ranked below `depth`, one right below. */
  lemma LongestOneUp(cs: seq<ComponentSpec>, byName: Index, rank: map<string, nat>, queue: seq<string>, x: string,
        depth: nat)
    requires Indexed(cs, byName) && HangsOn(byName, rank, queue, depth) && x in queue
    requires forall y | y in rank :: Longest(cs, y, rank[y])
    ensures Longest(cs, x, depth)
  {
    hide Indexed, ChainFrom;
    var p := ChainReaches(cs, byName, rank, x, depth);
    forall p | ChainFrom(cs, x, p) ensures |p| <= depth + 1 {
      ChainsBounded(cs, byName, rank, x, depth, p);
    }
  }

  function Extend(rank: map<string, nat>, queue: seq<string>, depth: nat): map<string, nat> {
    rank + map x | x in queue :: depth
  }

  lemma NewLevelSound(cs: seq<ComponentSpec>, byName: Index, rank: map<string, nat>, queue: seq<string>,
                      level: seq<ComponentSpec>, l: nat)
    requires Indexed(cs, byName) && queue != [] && NoRepeats(queue) && Resolves(byName, queue, level)
    ensures LevelSound(cs, level, l, Extend(rank, queue, l))
    ensures forall x | x in queue :: Holds(level, x)
  {
    forall i | 0 <= i < |level| ensures level[i] in cs && level[i].name == queue[i] && queue[i] in queue {
    }
    forall x | x in queue ensures Holds(level, x) {
      var i :| 0 <= i < |queue| && queue[i] == x;
      assert level[i].name == x;
    }
  }

  lemma OldLevelSound(cs: seq<ComponentSpec>, level: seq<ComponentSpec>, l: nat, rank: map<string, nat>,
                      queue: seq<string>, depth: nat)
    requires LevelSound(cs, level, l, rank) && Elements(queue) !! rank.Keys
    ensures LevelSound(cs, level, l, Extend(rank, queue, depth))
  {
    forall i | 0 <= i < |level| ensures level[i].name !in queue {
      assert level[i].name in rank;
      assert level[i].name !in Elements(queue);
    }
  }

  lemma RankedOneMore(cs: seq<ComponentSpec>, byName: Index, levels: seq<seq<ComponentSpec>>, rank: map<string, nat>,
                      queue: seq<string>, level: seq<ComponentSpec>)
    requires Indexed(cs, byName) && Ranked(cs, levels, rank) && HangsOn(byName, rank, queue, |levels|)
    requires queue != [] && NoRepeats(queue) && Elements(queue) !! rank.Keys && Resolves(byName, queue, level)
    ensures Ranked(cs, levels + [level], Extend(rank, queue, |levels|))
  {
    hide Indexed, HangsOn, LevelSound, Longest, Holds, Resolves, NoRepeats;
    var rank' := Extend(rank, queue, |levels|);
    var levels' := levels + [level];
    NewLevelSound(cs, byName, rank, queue, level, |levels|);
    forall l | 0 <= l < |levels'| ensures LevelSound(cs, levels'[l], l, rank') {
      if l < |levels| { OldLevelSound(cs, levels[l], l, rank, queue, |levels|); }
    }
    forall x | x in rank' ensures rank'[x] < |levels'| && Holds(levels'[rank'[x]], x) && Longest(cs, x, rank'[x]) {
      if x in queue {
        LongestOneUp(cs, byName, rank, queue, x, |levels|);
      } else {
        assert x in rank && rank'[x] == rank[x] && levels'[rank[x]] == levels[rank[x]];
      }
    }
  }

  /** In the queue are those who are left and depend on nobody who is. */
  lemma Queued(byName: Index, inDegree: map<string, int>, done: set<string>, queue: seq<string>, x: string)
    requires Degrees(byName, inDegree, done) && Frontier(byName, inDegree, done, queue)
    ensures x in queue <==> x in byName && x !in done && forall d | d in byName[x].dependsOn :: d in done
  {
    if x in byName { PendingZero(byName[x].dependsOn, done); }
    hide Pending, NoRepeats;
  }

  /** Who enters the queue now waited for somebody of the level just taken. */
  lemma HangsOnNext(byName: Index, rank: map<string, nat>, queue: seq<string>, depth: nat,
                    inDegree0: map<string, int>, inDegree: map<string, int>, next: seq<string>)
    requires Degrees(byName, inDegree0, rank.Keys) && Frontier(byName, inDegree0, rank.Keys, queue)
    requires forall x | x in rank :: rank[x] < depth
    requires Degrees(byName, inDegree, rank.Keys + Elements(queue))
    requires Frontier(byName, inDegree, rank.Keys + Elements(queue), next)
    ensures HangsOn(byName, Extend(rank, queue, depth), next, depth + 1)
  {
    hide Degrees, Frontier;
    var rank' := Extend(rank, queue, depth);
    assert rank'.Keys == rank.Keys + Elements(queue);
    forall x | x in next
      ensures x in byName
      ensures forall d | d in byName[x].dependsOn :: d in rank' && rank'[d] < depth + 1
      ensures NeedsOneAt(byName[x].dependsOn, rank', depth)
    {
      Queued(byName, inDegree, rank'.Keys, next, x);
      Queued(byName, inDegree0, rank.Keys, queue, x);
      var d :| d in byName[x].dependsOn && d !in rank.Keys;
      assert d in queue;
    }
  }

  ghost predicate Tallied(cs: seq<ComponentSpec>, inDegree: map<string, int>, i: nat)
    requires i <= |cs|
  {
    forall j | 0 <= j < i :: cs[j].name in inDegree && inDegree[cs[j].name] == |cs[j].dependsOn|
  }

  lemma TalliedStep(cs: seq<ComponentSpec>, inDegree: map<string, int>, i: nat)
    requires i < |cs| && Tallied(cs, inDegree, i) && cs[i].name !in inDegree
    ensures Tallied(cs, inDegree[cs[i].name := |cs[i].dependsOn|], i + 1)
  {
  }

  /** Counts every component's dependencies; false when a name comes twice. */
  method CountDependencies(cs: seq<ComponentSpec>) returns (unique: bool, inDegree: map<string, int>)
    ensures unique <==> UniqueNames(cs)
    ensures inDegree.Keys == Names(cs)
    ensures unique ==> Tallied(cs, inDegree, |cs|)
  {
    unique, inDegree := true, map[];
    assert UniqueNames(cs[..0]) && Names(cs[..0]) == {} && Tallied(cs, inDegree, 0);
    hide UniqueNames, Names, Tallied;
    for i := 0 to |cs|
      invariant unique <==> UniqueNames(cs[..i])
      invariant inDegree.Keys == Names(cs[..i])
      invariant unique ==> Tallied(cs, inDegree, i)
    {
      NamesStep(cs, i);
      UniqueStep(cs, i);
      if cs[i].name in inDegree {
        unique := false;
      } else {
        if unique { TalliedStep(cs, inDegree, i); }
        inDegree := inDegree[cs[i].name := |cs[i].dependsOn|];
      }
    }
    assert cs[..|cs|] == cs;
  }

  lemma NamesStep(cs: seq<ComponentSpec>, i: nat)
    requires i < |cs|
    ensures Names(cs[..i + 1]) == Names(cs[..i]) + {cs[i].name}
  {
    assert cs[..i + 1] == cs[..i] + [cs[i]];
    assert cs[..i + 1][i].name == cs[i].name;
    forall x | x in Names(cs[..i]) ensures x in Names(cs[..i + 1]) {
      var j :| 0 <= j < i && cs[..i][j].name == x;
      assert cs[..i + 1][j].name == x;
    }
    forall x | x in Names(cs[..i + 1]) ensures x in Names(cs[..i]) + {cs[i].name} {
      var j :| 0 <= j < i + 1 && cs[..i + 1][j].name == x;
      if j < i { assert cs[..i][j].name == x; }
    }
  }

  lemma UniqueStep(cs: seq<ComponentSpec>, i: nat)
    requires i < |cs|
    ensures UniqueNames(cs[..i + 1]) <==> UniqueNames(cs[..i]) && cs[i].name !in Names(cs[..i])
  {
    if UniqueNames(cs[..i + 1]) {
      forall j, k | 0 <= j < k < i ensures cs[..i][j].name != cs[..i][k].name {
        assert cs[..i + 1][j].name != cs[..i + 1][k].name;
      }
      forall j | 0 <= j < i ensures cs[..i][j].name != cs[i].name {
        assert cs[..i + 1][j].name != cs[..i + 1][i].name;
      }
    }
    if UniqueNames(cs[..i]) && cs[i].name !in Names(cs[..i]) {
      var more := cs[..i + 1];
      forall j, k | 0 <= j < k < |more| ensures more[j].name != more[k].name {
        assert cs[..i][j].name in Names(cs[..i]);
        if k < i { assert cs[..i][j].name != cs[..i][k].name; }
      }
    }
  }

  /** How often cs[j] is listed under `d` once the components before `i`, and the first `k`
      entries of cs[i], are linked. */
  function Listed(cs: seq<ComponentSpec>, i: nat, k: nat, j: nat, d: string): nat
    requires j < |cs| && (i < |cs| ==> k <= |cs[i].dependsOn|)
  {
    if j < i then multiset(cs[j].dependsOn)[d]
    else if j == i then multiset(cs[i].dependsOn[..k])[d]
    else 0
  }

  ghost predicate LinkedUpTo(cs: seq<ComponentSpec>, adjacency: map<string, seq<string>>, i: nat, k: nat)
    requires i < |cs| ==> k <= |cs[i].dependsOn|
  {
    && (forall j, d | 0 <= j < |cs| :: multiset(Dependents(adjacency, d))[cs[j].name] == Listed(cs, i, k, j, d))
    && (forall d, x | x in Dependents(adjacency, d) :: x in Names(cs))
  }

  /** The new entry of `dep` counts once for cs[i] and changes no other count. */
  lemma AppendedCount(adjacency: map<string, seq<string>>, dep: string, name: string, d: string, x: string)
    ensures var adjacency' := adjacency[dep := Dependents(adjacency, dep) + [name]];
      multiset(Dependents(adjacency', d))[x] ==
      multiset(Dependents(adjacency, d))[x] + (if d == dep && x == name then 1 else 0)
  {
  }

  lemma ListedStep(cs: seq<ComponentSpec>, i: nat, k: nat, j: nat, d: string)
    requires j < |cs| && i < |cs| && k < |cs[i].dependsOn|
    ensures Listed(cs, i, k + 1, j, d) == Listed(cs, i, k, j, d) + (if d == cs[i].dependsOn[k] && j == i then 1 else 0)
  {
    assert cs[i].dependsOn[..k + 1] == cs[i].dependsOn[..k] + [cs[i].dependsOn[k]];
  }

  function Linking(cs: seq<ComponentSpec>, adjacency: map<string, seq<string>>, i: nat, k: nat): map<string,
          seq<string>>
    requires i < |cs| && k < |cs[i].dependsOn|
  {
    var d := cs[i].dependsOn[k];
    adjacency[d := Dependents(adjacency, d) + [cs[i].name]]
  }

  lemma LinkStepAt(cs: seq<ComponentSpec>, adjacency: map<string, seq<string>>, i: nat, k: nat, j: nat, d: string)
    requires UniqueNames(cs) && i < |cs| && k < |cs[i].dependsOn| && j < |cs|
    requires multiset(Dependents(adjacency, d))[cs[j].name] == Listed(cs, i, k, j, d)
    ensures multiset(Dependents(Linking(cs, adjacency, i, k), d))[cs[j].name] == Listed(cs, i, k + 1, j, d)
  {
    assert (cs[j].name == cs[i].name) == (i == j);
    hide Dependents, Listed, UniqueNames;
    AppendedCount(adjacency, cs[i].dependsOn[k], cs[i].name, d, cs[j].name);
    ListedStep(cs, i, k, j, d);
  }

  lemma LinkStepMember(cs: seq<ComponentSpec>, adjacency: map<string, seq<string>>, i: nat, k: nat, d: string,
          x: string)
    requires i < |cs| && k < |cs[i].dependsOn| && x in Dependents(Linking(cs, adjacency, i, k), d)
    ensures x in Dependents(adjacency, d) || (x == cs[i].name && x in Names(cs))
  {
  }

  /** cs[i] is appended to the dependents of its k-th dependency. */
  lemma LinkStep(cs: seq<ComponentSpec>, adjacency: map<string, seq<string>>, i: nat, k: nat)
    requires UniqueNames(cs) && i < |cs| && k < |cs[i].dependsOn| && LinkedUpTo(cs, adjacency, i, k)
    ensures LinkedUpTo(cs, Linking(cs, adjacency, i, k), i, k + 1)
  {
    var adjacency' := Linking(cs, adjacency, i, k);
    hide Dependents, Listed, Names, Linking, UniqueNames;
    forall j, d | 0 <= j < |cs|
      ensures multiset(Dependents(adjacency', d))[cs[j].name] == Listed(cs, i, k + 1, j, d)
    {
      LinkStepAt(cs, adjacency, i, k, j, d);
    }
    forall d, x | x in Dependents(adjacency', d) ensures x in Names(cs) {
      LinkStepMember(cs, adjacency, i, k, d, x);
    }
  }

  lemma LinkNext(cs: seq<ComponentSpec>, adjacency: map<string, seq<string>>, i: nat)
    requires i < |cs| && LinkedUpTo(cs, adjacency, i, |cs[i].dependsOn|)
    ensures LinkedUpTo(cs, adjacency, i + 1, 0)
  {
    assert cs[i].dependsOn[..|cs[i].dependsOn|] == cs[i].dependsOn;
    forall j, d | 0 <= j < |cs| ensures Listed(cs, i + 1, 0, j, d) == Listed(cs, i, |cs[i].dependsOn|, j, d) {
    }
  }

  /** The queue holds, once each, those of the first `i` that depend on nobody. */
  ghost predicate Roots(cs: seq<ComponentSpec>, i: nat, queue: seq<string>)
    requires i <= |cs|
  {
    && NoRepeats(queue)
    && forall x :: x in queue <==> exists j | 0 <= j < i :: cs[j].name == x && cs[j].dependsOn == []
  }

  lemma RootsStep(cs: seq<ComponentSpec>, i: nat, queue: seq<string>)
    requires UniqueNames(cs) && i < |cs| && Roots(cs, i, queue)
    ensures Roots(cs, i + 1, if cs[i].dependsOn == [] then queue + [cs[i].name] else queue)
  {
    assert cs[i].name !in queue;
  }

  ghost predicate KnownUpTo(cs: seq<ComponentSpec>, i: nat)
    requires i <= |cs|
  {
    forall j, k | 0 <= j < i && 0 <= k < |cs[j].dependsOn| :: cs[j].dependsOn[k] in Names(cs)
  }

  lemma KnownStep(cs: seq<ComponentSpec>, i: nat)
    requires i < |cs|
    ensures KnownUpTo(cs, i + 1) <==>
            KnownUpTo(cs, i) && forall k | 0 <= k < |cs[i].dependsOn| :: cs[i].dependsOn[k] in Names(cs)
  {
    hide Names;
  }

  lemma KnownIs(cs: seq<ComponentSpec>)
    ensures KnownUpTo(cs, |cs|) <==> KnownDependencies(cs)
  {
    hide Names;
  }

  /** Builds the adjacency and the first queue; false when a dependency is unknown. */
  method LinkDependents(cs: seq<ComponentSpec>, inDegree: map<string, int>)
    returns (known: bool, adjacency: map<string, seq<string>>, queue: seq<string>)
    requires UniqueNames(cs) && inDegree.Keys == Names(cs)
    ensures known <==> KnownDependencies(cs)
    ensures known ==> LinkedUpTo(cs, adjacency, |cs|, 0) && Roots(cs, |cs|, queue)
  {
    known, adjacency, queue := true, map[], [];
    assert KnownUpTo(cs, 0) && LinkedUpTo(cs, adjacency, 0, 0) && Roots(cs, 0, queue);
    hide LinkedUpTo, UniqueNames, Names, Roots, KnownUpTo, KnownDependencies;
    for i := 0 to |cs|
      invariant known <==> KnownUpTo(cs, i)
      invariant known ==> LinkedUpTo(cs, adjacency, i, 0)
      invariant Roots(cs, i, queue)
    {
      var fine: bool;
      fine, adjacency := LinkOne(cs, inDegree, i, known, adjacency);
      KnownStep(cs, i);
      RootsStep(cs, i, queue);
      known := known && fine;
      if cs[i].dependsOn == [] {
        queue := queue + [cs[i].name];
      }
    }
    KnownIs(cs);
  }

  /** The dependencies of cs[i]. */
  method LinkOne(cs: seq<ComponentSpec>, inDegree: map<string, int>, i: nat, ghost known: bool,
                 adjacency0: map<string, seq<string>>)
    returns (fine: bool, adjacency: map<string, seq<string>>)
    requires UniqueNames(cs) && inDegree.Keys == Names(cs) && i < |cs|
    requires known ==> LinkedUpTo(cs, adjacency0, i, 0)
    ensures fine <==> forall k | 0 <= k < |cs[i].dependsOn| :: cs[i].dependsOn[k] in Names(cs)
    ensures known && fine ==> LinkedUpTo(cs, adjacency, i + 1, 0)
  {
    hide LinkedUpTo, UniqueNames, Names;
    fine, adjacency := true, adjacency0;
    for k := 0 to |cs[i].dependsOn|
      invariant fine <==> forall l | 0 <= l < k :: cs[i].dependsOn[l] in Names(cs)
      invariant known && fine ==> LinkedUpTo(cs, adjacency, i, k)
    {
      var dep := cs[i].dependsOn[k];
      if dep !in inDegree {
        fine := false;
      } else {
        if known && fine { LinkStep(cs, adjacency, i, k); }
        adjacency := adjacency[dep := Dependents(adjacency, dep) + [cs[i].name]];
      }
    }
    if known && fine { LinkNext(cs, adjacency, i); }
  }

  method IndexByName(cs: seq<ComponentSpec>) returns (byName: Index)
    requires UniqueNames(cs)
    ensures Indexed(cs, byName)
  {
    byName := map[];
    for i := 0 to |cs|
      invariant byName.Keys == Names(cs[..i])
      invariant forall j | 0 <= j < i :: cs[j].name in byName && byName[cs[j].name] == cs[j]
      invariant forall x | x in byName :: byName[x] in cs && byName[x].name == x
    {
      NamesStep(cs, i);
      byName := byName[cs[i].name := cs[i]];
    }
    assert cs[..|cs|] == cs;
  }

  lemma LinkedByName(cs: seq<ComponentSpec>, byName: Index, adjacency: map<string, seq<string>>)
    requires UniqueNames(cs) && Indexed(cs, byName) && LinkedUpTo(cs, adjacency, |cs|, 0)
    ensures Linked(byName, adjacency)
  {
    forall d, x | d in byName && x in byName
      ensures multiset(Dependents(adjacency, d))[x] == multiset(byName[x].dependsOn)[d]
    {
      var j :| 0 <= j < |cs| && cs[j] == byName[x];
      assert multiset(Dependents(adjacency, d))[cs[j].name] == Listed(cs, |cs|, 0, j, d);
    }
  }

  /** Before the first level. */
  lemma Start(cs: seq<ComponentSpec>, byName: Index, inDegree: map<string, int>, queue: seq<string>)
    requires UniqueNames(cs) && Indexed(cs, byName) && inDegree.Keys == Names(cs)
    requires Tallied(cs, inDegree, |cs|)
    requires Roots(cs, |cs|, queue)
    ensures Degrees(byName, inDegree, {}) && Frontier(byName, inDegree, {}, queue)
    ensures HangsOn(byName, map[], queue, 0)
  {
    forall x | x in byName
      ensures inDegree[x] == Pending(byName[x].dependsOn, {})
      ensures x in queue <==> byName[x].dependsOn == []
    {
      var i :| 0 <= i < |cs| && cs[i] == byName[x];
      PendingAll(byName[x].dependsOn);
      assert forall j | 0 <= j < |cs| && cs[j].name == x :: j == i;
    }
  }

  lemma LeftOverNeedsLeftOver(cs: seq<ComponentSpec>, byName: Index, inDegree: map<string, int>,
                              done: set<string>, x: string)
    requires KnownDependencies(cs) && Indexed(cs, byName) && x in byName && x !in done
    requires Degrees(byName, inDegree, done) && Frontier(byName, inDegree, done, [])
    ensures NeedsInside(cs, Names(cs) - done, x)
  {
    var nobody: seq<string> := [];
    assert x !in nobody;
    PendingZero(byName[x].dependsOn, done);
    var d :| d in byName[x].dependsOn && d !in done;
    IndexedDependsOn(cs, byName, x, d);
    DependencyKnown(cs, x, d);
    hide Indexed, DependsOn, Degrees, Frontier;
    assert d in Names(cs) - done;
  }

  /** With an empty queue, whoever is not ranked still needs somebody who is not ranked. */
  lemma Finish(cs: seq<ComponentSpec>, byName: Index, inDegree: map<string, int>,
               levels: seq<seq<ComponentSpec>>, rank: map<string, nat>)
    requires KnownDependencies(cs) && Indexed(cs, byName) && Ranked(cs, levels, rank)
    requires Degrees(byName, inDegree, rank.Keys) && Frontier(byName, inDegree, rank.Keys, [])
    ensures Acyclic(cs) <==> rank.Keys == Names(cs)
  {
    hide Indexed, Degrees, Frontier, Ranked, Names, DependsOn, KnownDependencies, Acyclic, NeedsInside;
    RankWithinNames(cs, levels, rank);
    if rank.Keys == Names(cs) {
      RanksAreLongest(cs, levels, rank);
      LongestExcludesCycles(cs, rank);
    } else {
      IndexedKeys(cs, byName);
      var stuck := Names(cs) - rank.Keys;
      forall x | x in stuck ensures NeedsInside(cs, stuck, x) {
        LeftOverNeedsLeftOver(cs, byName, inDegree, rank.Keys, x);
      }
      StuckMeansCycle(cs, stuck);
    }
  }

  lemma RanksAreLongest(cs: seq<ComponentSpec>, levels: seq<seq<ComponentSpec>>, rank: map<string, nat>)
    requires Ranked(cs, levels, rank)
    ensures forall x | x in rank :: rank[x] < |levels| && Longest(cs, x, rank[x])
  {
  }

  lemma IndexedKeys(cs: seq<ComponentSpec>, byName: Index)
    requires Indexed(cs, byName)
    ensures byName.Keys == Names(cs)
  {
  }

  lemma DependencyKnown(cs: seq<ComponentSpec>, x: string, d: string)
    requires KnownDependencies(cs) && DependsOn(cs, x, d)
    ensures d in Names(cs)
  {
    var i :| 0 <= i < |cs| && cs[i].name == x && d in cs[i].dependsOn;
    var k :| 0 <= k < |cs[i].dependsOn| && cs[i].dependsOn[k] == d;
    assert cs[i].dependsOn[k] in Names(cs);
  }

  function Visited(levels: seq<seq<ComponentSpec>>): nat {
    if levels == [] then 0 else Visited(levels[..|levels| - 1]) + |levels[|levels| - 1]|
  }

  lemma {:induction false} UniqueSize(cs: seq<ComponentSpec>)
    requires UniqueNames(cs)
    ensures |Names(cs)| == |cs|
  {
    if cs != [] {
      var n := |cs| - 1;
      NamesStep(cs, n);
      UniqueStep(cs, n);
      assert cs[..n + 1] == cs;
      UniqueSize(cs[..n]);
    }
  }

  lemma {:induction false} ElementsSize(q: seq<string>)
    requires NoRepeats(q)
    ensures |Elements(q)| == |q|
  {
    if q != [] {
      var n := |q| - 1;
      ElementsStep(q, n);
      assert q[..n + 1] == q;
      assert NoRepeats(q[..n]);
      ElementsSize(q[..n]);
      hide Elements, NoRepeats;
    }
  }

  lemma ElementsStep(q: seq<string>, k: nat)
    requires k < |q| && NoRepeats(q)
    ensures Elements(q[..k + 1]) == Elements(q[..k]) + {q[k]} && q[k] !in Elements(q[..k])
  {
    assert q[..k + 1] == q[..k] + [q[k]];
  }

  /** The levels hold every component once, each at the length of its longest chain. */
  ghost predicate ExactLevels(cs: seq<ComponentSpec>, levels: seq<seq<ComponentSpec>>) {
    && (forall l, i | 0 <= l < |levels| && 0 <= i < |levels[l]| ::
          levels[l][i] in cs && Longest(cs, levels[l][i].name, l))
    && (forall l | 0 <= l < |levels| :: levels[l] != [] && UniqueNames(levels[l]))
    && (forall c | c in cs :: exists l, i :: 0 <= l < |levels| && 0 <= i < |levels[l]| && levels[l][i] == c)
  }

  lemma RankedIsExact(cs: seq<ComponentSpec>, levels: seq<seq<ComponentSpec>>, rank: map<string, nat>)
    requires UniqueNames(cs) && Ranked(cs, levels, rank) && rank.Keys == Names(cs)
    ensures ExactLevels(cs, levels)
  {
    forall l, i | 0 <= l < |levels| && 0 <= i < |levels[l]|
      ensures levels[l][i] in cs && Longest(cs, levels[l][i].name, l)
    {
      assert LevelSound(cs, levels[l], l, rank);
    }
    forall c | c in cs ensures exists l, i :: 0 <= l < |levels| && 0 <= i < |levels[l]| && levels[l][i] == c {
      assert c.name in rank && Holds(levels[rank[c.name]], c.name);
      var i :| 0 <= i < |levels[rank[c.name]]| && levels[rank[c.name]][i].name == c.name;
      assert LevelSound(cs, levels[rank[c.name]], rank[c.name], rank);
      assert levels[rank[c.name]][i] in cs;
      assert levels[rank[c.name]][i] == c;
    }
  }

  /** The loop over the queue: whatever it leaves unranked is caught in a cycle. */
  method Layer(cs: seq<ComponentSpec>, byName: Index, adjacency: map<string, seq<string>>,
               inDegree0: map<string, int>, queue0: seq<string>)
    returns (levels: seq<seq<ComponentSpec>>, ghost rank: map<string, nat>)
    requires KnownDependencies(cs) && Indexed(cs, byName) && Linked(byName, adjacency)
    requires Degrees(byName, inDegree0, {}) && Frontier(byName, inDegree0, {}, queue0)
    requires HangsOn(byName, map[], queue0, 0)
    ensures Ranked(cs, levels, rank) && Visited(levels) == |rank|
    ensures Acyclic(cs) <==> rank.Keys == Names(cs)
  {
    hide Indexed, Linked, Degrees, HangsOn, Resolves, Extend, Elements, Acyclic, Names, KnownDependencies;
    levels, rank := [], map[];
    var queue, inDegree := queue0, inDegree0;
    assert Ranked(cs, levels, rank);
    assert rank.Keys == {};
    hide Ranked, Frontier;
    while queue != []
      invariant Ranked(cs, levels, rank) && Visited(levels) == |rank|
      invariant Degrees(byName, inDegree, rank.Keys) && Frontier(byName, inDegree, rank.Keys, queue)
      invariant HangsOn(byName, rank, queue, |levels|)
      decreases byName.Keys - rank.Keys
    {
      var level, next, degrees := TakeLevel(byName, adjacency, queue, inDegree, rank.Keys);
      LayerStep(cs, byName, levels, rank, queue, level, inDegree, degrees, next);
      rank := Extend(rank, queue, |levels|);
      levels := levels + [level];
      queue, inDegree := next, degrees;
    }
    Finish(cs, byName, inDegree, levels, rank);
  }

  lemma FrontierFacts(byName: Index, inDegree: map<string, int>, done: set<string>, queue: seq<string>)
    requires Frontier(byName, inDegree, done, queue) && queue != []
    ensures NoRepeats(queue) && Elements(queue) <= byName.Keys - done && Elements(queue) != {}
  {
    assert queue[0] in Elements(queue);
  }

  lemma LayerStep(cs: seq<ComponentSpec>, byName: Index, levels: seq<seq<ComponentSpec>>, rank: map<string, nat>,
                  queue: seq<string>, level: seq<ComponentSpec>,
                  inDegree: map<string, int>, degrees: map<string, int>, next: seq<string>)
    requires Indexed(cs, byName) && Ranked(cs, levels, rank) && Visited(levels) == |rank|
    requires Degrees(byName, inDegree, rank.Keys) && Frontier(byName, inDegree, rank.Keys, queue) && queue != []
    requires HangsOn(byName, rank, queue, |levels|) && Resolves(byName, queue, level)
    requires Degrees(byName, degrees, rank.Keys + Elements(queue))
    requires Frontier(byName, degrees, rank.Keys + Elements(queue), next)
    ensures var rank' := Extend(rank, queue, |levels|);
      && Ranked(cs, levels + [level], rank') && Visited(levels + [level]) == |rank'|
      && rank'.Keys == rank.Keys + Elements(queue) && Elements(queue) <= byName.Keys - rank.Keys
         && Elements(queue) != {}
      && HangsOn(byName, rank', next, |levels| + 1)
  {
    hide Indexed, Ranked, Degrees, Frontier, HangsOn, Resolves, Longest, Elements, Extend;
    FrontierFacts(byName, inDegree, rank.Keys, queue);
    RanksAreLongest(cs, levels, rank);
    RankedOneMore(cs, byName, levels, rank, queue, level);
    HangsOnNext(byName, rank, queue, |levels|, inDegree, degrees, next);
    ElementsSize(queue);
    assert (levels + [level])[..|levels|] == levels;
    ResolvesSize(byName, queue, level);
    ExtendSize(rank, queue, |levels|);
  }

  lemma ResolvesSize(byName: Index, names: seq<string>, level: seq<ComponentSpec>)
    requires Resolves(byName, names, level)
    ensures |level| == |names|
  {
  }

  lemma ExtendSize(rank: map<string, nat>, queue: seq<string>, depth: nat)
    requires Elements(queue) !! rank.Keys
    ensures Extend(rank, queue, depth).Keys == rank.Keys + Elements(queue)
    ensures |Extend(rank, queue, depth)| == |rank| + |Elements(queue)|
  {
    assert Extend(rank, queue, depth).Keys == rank.Keys + Elements(queue);
    assert |rank.Keys + Elements(queue)| == |rank.Keys| + |Elements(queue)|;
    assert |Extend(rank, queue, depth)| == |Extend(rank, queue, depth).Keys|;
  }

  /** Splits components into deployment levels, or says what is wrong with them. */
  method BuildLevels(cs: seq<ComponentSpec>) returns (result: Result<seq<seq<ComponentSpec>>, GraphError>)
    ensures result.Ok? <==> UniqueNames(cs) && KnownDependencies(cs) && Acyclic(cs)
    ensures result.Ok? ==> ExactLevels(cs, result.value)
    ensures result == Err(Duplicated) <==> !UniqueNames(cs)
    ensures result == Err(Unknown) <==> UniqueNames(cs) && !KnownDependencies(cs)
  {
    hide Indexed, Linked, Degrees, Frontier, HangsOn, Ranked, Names, Visited, LinkedUpTo, Roots, Tallied;
    var unique, inDegree := CountDependencies(cs);
    if !unique { return Err(Duplicated); }
    var known, adjacency, queue := LinkDependents(cs, inDegree);
    if !known { return Err(Unknown); }
    var byName := IndexByName(cs);
    LinkedByName(cs, byName, adjacency);
    Start(cs, byName, inDegree, queue);
    var levels;
    ghost var rank;
    levels, rank := Layer(cs, byName, adjacency, inDegree, queue);
    UniqueSize(cs);
    var visited := CountVisited(levels);
    RankWithinNames(cs, levels, rank);
    if visited < |cs| { return Err(Cycle); }
    RankedIsExact(cs, levels, rank);
    return Ok(levels);
  }

  lemma RankWithinNames(cs: seq<ComponentSpec>, levels: seq<seq<ComponentSpec>>, rank: map<string, nat>)
    requires Ranked(cs, levels, rank)
    ensures rank.Keys <= Names(cs)
    ensures |rank| <= |Names(cs)|
    ensures |rank| == |Names(cs)| ==> rank.Keys == Names(cs)
    ensures rank.Keys != Names(cs) ==> Names(cs) - rank.Keys != {}
  {
    forall x | x in rank ensures x in Names(cs) { LongestIsNamed(cs, x, rank[x]); }
    hide Ranked, Longest, Names;
    SubsetSize(rank.Keys, Names(cs));
    assert |rank| == |rank.Keys|;
    if rank.Keys != Names(cs) {
      assert Names(cs) == rank.Keys + (Names(cs) - rank.Keys);
    }
  }

  lemma LongestIsNamed(cs: seq<ComponentSpec>, x: string, n: nat)
    requires Longest(cs, x, n)
    ensures x in Names(cs)
  {
    var p :| ChainFrom(cs, x, p) && |p| == n + 1;
  }

  lemma SubsetSize(a: set<string>, b: set<string>)
    requires a <= b
    ensures |a| <= |b| && (|a| == |b| ==> a == b)
  {
    if x :| x in b {
      if x in a { SubsetSize(a - {x}, b - {x}); } else { SubsetSize(a, b - {x}); }
    }
  }

  method CountVisited(levels: seq<seq<ComponentSpec>>) returns (visited: nat)
    ensures visited == Visited(levels)
  {
    visited := 0;
    for l := 0 to |levels|
      invariant visited == Visited(levels[..l])
    {
      visited := visited + |levels[l]|;
      assert levels[..l + 1][..l] == levels[..l];
    }
    assert levels[..|levels|] == levels;
  }
}
