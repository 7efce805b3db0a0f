/** deployBackoff: a shift of a 64-bit duration, guarded against what the shift may do. */
module Backoff {
  import opened Wrappers
  import opened Template
  import opened ComponentStatus

  const SECOND := 1_000_000_000
  const REQUEUE_AFTER := 10 * SECOND
  const MAX_DEPLOY_BACKOFF := 300 * SECOND

  const TWO_40 := 0x100_0000_0000
  const TWO_63 := 0x8000_0000_0000_0000
  const TWO_64 := 0x1_0000_0000_0000_0000

  function Pow2(n: nat): nat {
    if n == 0 then 1 else 2 * Pow2(n - 1)
  }

  function Wrap64(x: int): int {
    (x + TWO_63) % TWO_64 - TWO_63
  }

  /** `x << n` on a 64-bit integer. */
  function ShiftLeft(x: int, n: nat): int {
    if n >= 64 then 0 else Wrap64(x * Pow2(n))
  }

  /** The wait that is meant: ten seconds, doubled per retry, five minutes at most. */
  function Intended(retries: nat): int {
    if REQUEUE_AFTER * Pow2(retries) <= MAX_DEPLOY_BACKOFF then REQUEUE_AFTER * Pow2(retries) else MAX_DEPLOY_BACKOFF
  }

  predicate Listed(components: seq<ComponentSpec>, name: string) {
    exists i | 0 <= i < |components| :: components[i].name == name
  }

  /** The largest retry count among the listed components, 0 when none is positive. */
  function LargestRetries(cs: seq<Entry>, components: seq<ComponentSpec>): nat {
    if cs == [] then 0
    else
      var last := cs[|cs| - 1];
      var rest := LargestRetries(cs[..|cs| - 1], components);
      if Listed(components, last.name) && last.retries > rest then last.retries else rest
  }

  lemma {:induction false} LargestRetriesIsLargest(cs: seq<Entry>, components: seq<ComponentSpec>)
    ensures forall e | e in cs && Listed(components, e.name) :: e.retries <= LargestRetries(cs, components)
    ensures LargestRetries(cs, components) > 0 ==>
              exists e | e in cs :: Listed(components, e.name) && e.retries == LargestRetries(cs, components)
  {
    if cs != [] {
      var init := cs[..|cs| - 1];
      LargestRetriesIsLargest(init, components);
      assert cs == init + [cs[|cs| - 1]];
      if LargestRetries(init, components) > 0 {
        var e :| e in init && Listed(components, e.name) && e.retries == LargestRetries(init, components);
        assert e in cs;
      }
    }
  }

  lemma {:induction false} Pow2Monotone(m: nat, n: nat)
    requires m <= n
    ensures Pow2(m) <= Pow2(n)
    decreases n
  {
    if m < n { Pow2Monotone(m, n - 1); }
  }

  lemma {:induction false} Pow2Splits(m: nat, n: nat)
    ensures Pow2(m + n) == Pow2(m) * Pow2(n)
  {
    if n > 0 {
      Pow2Splits(m, n - 1);
      assert Pow2(m + n) == 2 * Pow2(m + n - 1) && Pow2(n) == 2 * Pow2(n - 1);
      hide Pow2;
      DoubleProduct(Pow2(m), Pow2(n - 1));
    }
  }

  lemma DoubleProduct(a: int, b: int)
    ensures 2 * (a * b) == a * (2 * b)
  {
  }

  lemma Pow2At30()
    ensures Pow2(5) == 32 && Pow2(29) == 0x2000_0000 && Pow2(30) == 0x4000_0000
  {
    Pow2Splits(5, 5);
    Pow2Splits(10, 10);
    Pow2Splits(20, 9);
    Pow2Splits(5, 4);
  }

  lemma MultipleModulo(q: int, m: int, c: int)
    requires m > 0 && c > 0
    ensures 0 < m * c && (q * c) % (m * c) == (q % m) * c
  {
    var d, r := q / m, q % m;
    assert q == m * d + r;
    assert q * c == (m * c) * d + r * c by { MulAssociates(m, d, c, r); }
    assert 0 <= r * c < m * c by { MulBounds(r, m, c); }
    RemainderIs(q * c, m * c, d, r * c);
  }

  lemma MulAssociates(m: int, d: int, c: int, r: int)
    ensures (m * d + r) * c == (m * c) * d + r * c
  {
  }

  lemma MulBounds(r: int, m: int, c: int)
    requires 0 <= r < m && c > 0
    ensures 0 <= r * c < m * c
  {
    assert (m - r) * c > 0;
  }

  lemma RemainderIs(x: int, n: int, d: int, r: int)
    requires n > 0 && x == n * d + r && 0 <= r < n
    ensures x % n == r
  {
    DivisionSplits(x, n);
    assert n * (x / n) - n * d == n * (x / n - d) by { Distributes(n, x / n, d); }
    SmallMultiple(n, x / n - d, n * (x / n) - n * d);
  }

  lemma Distributes(n: int, e: int, d: int)
    ensures n * e - n * d == n * (e - d)
  {
  }

  lemma DivisionSplits(x: int, n: int)
    requires n > 0
    ensures x == n * (x / n) + x % n && 0 <= x % n < n
  {
  }

  lemma SmallMultiple(n: int, k: int, p: int)
    requires p == n * k && -n < p < n
    ensures k == 0
  {
    AtLeastOnce(n, k);
  }

  lemma AtLeastOnce(n: int, k: int)
    requires n > 0
    ensures k >= 1 ==> n * k >= n
    ensures k <= -1 ==> n * k <= -n
  {
    if k >= 1 {
      assert n * (k - 1) >= 0;
    } else if k <= -1 {
      assert n * (-k - 1) >= 0;
    }
  }

  /** Wrapping a multiple of 2^40 wraps the factor to 24 bits. */
  lemma WrapCoarse(q: int)
    ensures Wrap64(q * TWO_40) == ((q + 0x80_0000) % 0x100_0000 - 0x80_0000) * TWO_40
  {
    MultipleModulo(q + 0x80_0000, 0x100_0000, TWO_40);
  }

  lemma ProductIsCoarse(retries: nat)
    requires 30 <= retries
    ensures REQUEUE_AFTER * Pow2(retries) == (9_765_625 * Pow2(retries - 30)) * TWO_40
  {
    hide Pow2;
    Pow2At30();
    Pow2Splits(30, retries - 30);
    MulRegroup(REQUEUE_AFTER, Pow2(30), Pow2(retries - 30));
    MulRegroup(TWO_40, 9_765_625, Pow2(retries - 30));
  }

  /** From 30 retries on the product has left the 64-bit range, but every value it can wrap
      to is a multiple of 2^40 nanoseconds: not positive, or more than eighteen minutes. */
  lemma OverflowIsCoarse(retries: nat)
    requires 30 <= retries < 64
    ensures ShiftLeft(REQUEUE_AFTER, retries) % TWO_40 == 0
  {
    hide Pow2, Wrap64;
    var q := 9_765_625 * Pow2(retries - 30);
    ProductIsCoarse(retries);
    WrapCoarse(q);
    RemainderIs(ShiftLeft(REQUEUE_AFTER, retries), TWO_40, (q + 0x80_0000) % 0x100_0000 - 0x80_0000, 0);
  }

  lemma MulRegroup(a: int, b: int, c: int)
    ensures a * (b * c) == (a * b) * c
  {
  }

  lemma WrapIsIdentity(x: int)
    requires -TWO_63 <= x < TWO_63
    ensures Wrap64(x) == x
  {
  }

  lemma NoOverflow(retries: nat)
    requires retries < 30
    ensures ShiftLeft(REQUEUE_AFTER, retries) == REQUEUE_AFTER * Pow2(retries)
  {
    hide Pow2, Wrap64;
    Pow2At30();
    Pow2Monotone(retries, 29);
    WrapIsIdentity(REQUEUE_AFTER * Pow2(retries));
  }

  /** The two guards turn the wrapping shift into the intended wait, for every count. */
  lemma GuardedShiftIsExact(retries: nat)
    ensures var backoff := ShiftLeft(REQUEUE_AFTER, retries);
      (if backoff > MAX_DEPLOY_BACKOFF || backoff <= 0 then MAX_DEPLOY_BACKOFF else backoff) == Intended(retries)
  {
    Pow2At30();
    if retries < 30 {
      NoOverflow(retries);
      Pow2Monotone(0, retries);
    } else {
      Pow2Monotone(5, retries);
      if retries < 64 { OverflowIsCoarse(retries); }
    }
  }

  lemma IntendedIsMonotone(m: nat, n: nat)
    requires m <= n
    ensures REQUEUE_AFTER <= Intended(m) <= Intended(n) <= MAX_DEPLOY_BACKOFF
  {
    Pow2Monotone(m, n);
    Pow2Monotone(0, m);
  }

  /** Waits as intended for the component with the most retries, for any 32-bit counts. */
  method DeployBackoff(cs: seq<Entry>, components: seq<ComponentSpec>) returns (backoff: int)
    ensures backoff == Intended(LargestRetries(cs, components))
    ensures REQUEUE_AFTER <= backoff <= MAX_DEPLOY_BACKOFF
  {
    var names: set<string> := {};
    for i := 0 to |components|
      invariant forall n :: n in names <==> exists j | 0 <= j < i :: components[j].name == n
    {
      names := names + {components[i].name};
    }
    var maxRetries: nat := 0;
    for i := 0 to |cs|
      invariant maxRetries == LargestRetries(cs[..i], components)
    {
      assert cs[..i + 1][..i] == cs[..i];
      if cs[i].name in names && cs[i].retries > maxRetries {
        maxRetries := cs[i].retries;
      }
    }
    assert cs[..|cs|] == cs;
    GuardedShiftIsExact(maxRetries);
    IntendedIsMonotone(0, maxRetries);
    backoff := ShiftLeft(REQUEUE_AFTER, maxRetries);
    if backoff > MAX_DEPLOY_BACKOFF || backoff <= 0 {
      return MAX_DEPLOY_BACKOFF;
    }
  }
}
