/** What the dependency order of a template means, independently of any algorithm. */
module DependencyGraph {
  import opened Template

  function Names(cs: seq<ComponentSpec>): set<string> {
    set i | 0 <= i < |cs| :: cs[i].name
  }

  lemma NamedByNobody(cs: seq<ComponentSpec>, n: string)
    ensures n !in Names(cs) <==> forall c | c in cs :: c.name != n
  {
    if c :| c in cs && c.name == n {
      var i :| 0 <= i < |cs| && cs[i] == c;
    }
  }

  predicate UniqueNames(cs: seq<ComponentSpec>) {
    forall i, j | 0 <= i < j < |cs| :: cs[i].name != cs[j].name
  }

  predicate KnownDependencies(cs: seq<ComponentSpec>) {
    forall i, k | 0 <= i < |cs| && 0 <= k < |cs[i].dependsOn| :: cs[i].dependsOn[k] in Names(cs)
  }

  predicate DependsOn(cs: seq<ComponentSpec>, x: string, y: string) {
    exists i | 0 <= i < |cs| :: cs[i].name == x && y in cs[i].dependsOn
  }

  /** A walk along dependencies, from a component towards what it needs. */
  predicate Chain(cs: seq<ComponentSpec>, p: seq<string>) {
    && |p| > 0
    && (forall i | 0 <= i < |p| :: p[i] in Names(cs))
    && (forall i | 0 <= i < |p| - 1 :: DependsOn(cs, p[i], p[i + 1]))
  }

  ghost predicate Acyclic(cs: seq<ComponentSpec>) {
    forall p | Chain(cs, p) && |p| > 1 :: p[0] != p[|p| - 1]
  }

  ghost predicate ChainFrom(cs: seq<ComponentSpec>, x: string, p: seq<string>) {
    Chain(cs, p) && p[0] == x
  }

  /** The longest dependency chain that starts at `x` has `n` edges. */
  ghost predicate Longest(cs: seq<ComponentSpec>, x: string, n: nat) {
    && (exists p :: ChainFrom(cs, x, p) && |p| == n + 1)
    && (forall p | ChainFrom(cs, x, p) :: |p| <= n + 1)
  }

  /** `y` is needed by `x`, directly or through others. */
  ghost predicate Needs(cs: seq<ComponentSpec>, x: string, y: string) {
    exists p :: ChainFrom(cs, x, p) && |p| > 1 && p[|p| - 1] == y
  }

  lemma LongestIsUnique(cs: seq<ComponentSpec>, x: string, m: nat, n: nat)
    requires Longest(cs, x, m) && Longest(cs, x, n)
    ensures m == n
  {
  }

  lemma ChainTail(cs: seq<ComponentSpec>, p: seq<string>)
    requires Chain(cs, p) && |p| > 1
    ensures Chain(cs, p[1..]) && DependsOn(cs, p[0], p[1])
  {
    hide DependsOn;
    forall i | 0 <= i < |p[1..]| - 1 ensures DependsOn(cs, p[1..][i], p[1..][i + 1]) {
      assert DependsOn(cs, p[i + 1], p[i + 2]);
    }
  }

  /** Two chains that meet. */
  lemma ChainJoin(cs: seq<ComponentSpec>, p: seq<string>, q: seq<string>)
    requires Chain(cs, p) && Chain(cs, q) && p[|p| - 1] == q[0]
    ensures Chain(cs, p[..|p| - 1] + q)
  {
    hide DependsOn;
    var joined := p[..|p| - 1] + q;
    forall i | 0 <= i < |joined| - 1 ensures DependsOn(cs, joined[i], joined[i + 1]) {
      if i < |p| - 1 {
        assert DependsOn(cs, p[i], p[i + 1]);
      } else {
        assert DependsOn(cs, q[i - (|p| - 1)], q[i - (|p| - 1) + 1]);
      }
    }
  }

  /** A chain that returns to its start could be walked again before the longest one. */
  lemma LongestExcludesCycles(cs: seq<ComponentSpec>, level: map<string, nat>)
    requires forall x | x in Names(cs) :: x in level && Longest(cs, x, level[x])
    ensures Acyclic(cs)
  {
    forall p | Chain(cs, p) && |p| > 1 ensures p[0] != p[|p| - 1] {
      if p[0] == p[|p| - 1] {
        var q :| ChainFrom(cs, p[0], q) && |q| == level[p[0]] + 1;
        ChainJoin(cs, p, q);
        assert ChainFrom(cs, p[0], p[..|p| - 1] + q);
        assert false;
      }
    }
  }

  /** What is needed sits strictly lower. */
  lemma NeedsDescends(cs: seq<ComponentSpec>, x: string, y: string, m: nat, n: nat)
    requires Needs(cs, x, y) && Longest(cs, x, m) && Longest(cs, y, n)
    ensures n < m
  {
    var p :| ChainFrom(cs, x, p) && |p| > 1 && p[|p| - 1] == y;
    var q :| ChainFrom(cs, y, q) && |q| == n + 1;
    ChainJoin(cs, p, q);
    assert ChainFrom(cs, x, p[..|p| - 1] + q);
  }

  lemma {:induction false} Pigeonhole(p: seq<string>, s: set<string>)
    requires |p| > |s| && forall i | 0 <= i < |p| :: p[i] in s
    ensures exists i, j :: 0 <= i < j < |p| && p[i] == p[j]
    decreases |s|
  {
    if i :| 0 <= i < |p| - 1 && p[i] == p[|p| - 1] {
    } else {
      var rest := p[..|p| - 1];
      Pigeonhole(rest, s - {p[|p| - 1]});
      var i, j :| 0 <= i < j < |rest| && rest[i] == rest[j];
      assert p[i] == p[j];
    }
  }

  ghost predicate NeedsInside(cs: seq<ComponentSpec>, stuck: set<string>, x: string) {
    exists y :: y in stuck && DependsOn(cs, x, y)
  }

  lemma SuccessorInside(cs: seq<ComponentSpec>, stuck: set<string>, x: string) returns (y: string)
    requires NeedsInside(cs, stuck, x)
    ensures y in stuck && DependsOn(cs, x, y)
  {
    y :| y in stuck && DependsOn(cs, x, y);
  }

  /** In a set where everybody still needs a member, one can walk as far as one likes. */
  lemma {:induction false} Walk(cs: seq<ComponentSpec>, stuck: set<string>, n: nat) returns (p: seq<string>)
    requires stuck <= Names(cs) && stuck != {}
    requires forall x | x in stuck :: NeedsInside(cs, stuck, x)
    ensures |p| == n + 1 && Chain(cs, p) && forall i | 0 <= i < |p| :: p[i] in stuck
  {
    hide DependsOn, NeedsInside;
    if n == 0 {
      var x :| x in stuck;
      p := [x];
    } else {
      var q := Walk(cs, stuck, n - 1);
      var y := SuccessorInside(cs, stuck, q[|q| - 1]);
      p := q + [y];
      forall i | 0 <= i < |p| - 1 ensures DependsOn(cs, p[i], p[i + 1]) {
        if i < |q| - 1 { assert DependsOn(cs, q[i], q[i + 1]); }
      }
    }
  }

  /** A walk that comes back to where it was. */
  lemma ReturnMeansCycle(cs: seq<ComponentSpec>, p: seq<string>, i: nat, j: nat)
    requires Chain(cs, p) && i < j < |p| && p[i] == p[j]
    ensures !Acyclic(cs)
  {
    hide DependsOn, Names;
    var loop := p[i..j + 1];
    forall k | 0 <= k < |loop| - 1 ensures DependsOn(cs, loop[k], loop[k + 1]) {
      assert DependsOn(cs, p[i + k], p[i + k + 1]);
    }
    assert Chain(cs, loop);
  }

  lemma StuckMeansCycle(cs: seq<ComponentSpec>, stuck: set<string>)
    requires stuck <= Names(cs) && stuck != {}
    requires forall x | x in stuck :: NeedsInside(cs, stuck, x)
    ensures !Acyclic(cs)
  {
    hide DependsOn, NeedsInside, Acyclic;
    var p := Walk(cs, stuck, |stuck|);
    Pigeonhole(p, stuck);
    var i, j :| 0 <= i < j < |p| && p[i] == p[j];
    ReturnMeansCycle(cs, p, i, j);
  }
}
