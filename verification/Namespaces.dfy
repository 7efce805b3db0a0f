/** Names of target namespaces: prefixes of the digest of an environment's UID. */
module Namespaces {
  import opened Wrappers
  import opened Lifecycle

  const NS_PREFIX := "petri-env-"
  const DIGEST_LENGTH := 64

  function Name(digest: string, n: nat): string
    requires n <= |digest|
  {
    NS_PREFIX + digest[..n]
  }

  /** What the cache says of a name. */
  datatype Probe = Free | Mine | Occupied | ProbeError

  datatype AllocateError = NoUid | Unreadable | AllOccupied

  /** What the search from `start` comes to. */
  function Allocation(me: string, start: nat, probe: nat -> Probe): Result<nat, AllocateError>
    decreases 56 - start
  {
    if me == "" then Err(NoUid)
    else if start > 52 then Err(AllOccupied)
    else match probe(start)
      case Free => Ok(start)
      case Mine => Ok(start)
      case ProbeError => Err(Unreadable)
      case Occupied => Allocation(me, start + 4, probe)
  }

  method AllocateNamespace(me: string, start: nat, probe: nat -> Probe) returns (n: Result<nat, AllocateError>)
    ensures n == Allocation(me, start, probe)
  {
    if me == "" { return Err(NoUid); }
    var k := start;
    while k <= 52
      invariant Allocation(me, start, probe) == Allocation(me, k, probe)
    {
      match probe(k) {
        case Free => return Ok(k);
        case Mine => return Ok(k);
        case ProbeError => return Err(Unreadable);
        case Occupied =>
      }
      k := k + 4;
    }
    return Err(AllOccupied);
  }

  /** The first length, from the start on, whose name is free or owned. It fails exactly when
      there is no UID, when all names are occupied, or at the first that cannot be read. */
  lemma {:induction false} AllocationIsFirst(me: string, start: nat, probe: nat -> Probe)
    requires start % 4 == 0 && start >= 8
    ensures var n := Allocation(me, start, probe);
      && (n.Ok? ==>
            me != "" && IsLength(n.value) && n.value >= start && (probe(n.value) == Free || probe(n.value) == Mine))
      && (n.Ok? ==> forall k | start <= k < n.value && k % 4 == 0 :: probe(k) == Occupied)
      && (n == Err(AllOccupied) <==> me != "" && forall k | start <= k <= 52 && k % 4 == 0 :: probe(k) == Occupied)
      && (n == Err(NoUid) <==> me == "")
    decreases 56 - start
  {
    if me != "" && start <= 52 && probe(start) == Occupied { AllocationIsFirst(me, start + 4, probe); }
  }

  /** Every length can come out, so TargetNamespace accepts nothing that could not. */
  lemma EveryLengthIsAllocated(me: string, n: nat)
    requires me != "" && IsLength(n)
    ensures Allocation(me, 8, k => if k == n then Free else Occupied) == Ok(n)
  {
    AllocationIsFirst(me, 8, k => if k == n then Free else Occupied);
  }

  predicate Valid(me: string, digest: string, target: string)
    requires |digest| == DIGEST_LENGTH
  {
    me != "" && exists n | 8 <= n <= 52 && n % 4 == 0 :: target == Name(digest, n)
  }

  /** Accepts exactly the names that allocateNamespace gives out. */
  method TargetNamespace(me: string, digest: string, target: string) returns (ok: bool)
    requires |digest| == DIGEST_LENGTH
    ensures ok <==> Valid(me, digest, target)
  {
    var n := 8;
    while n <= 52
      invariant 8 <= n <= 56 && n % 4 == 0
      invariant forall k | 8 <= k < n && k % 4 == 0 :: !(me != "" && target == Name(digest, k))
    {
      if me != "" && target == Name(digest, n) { return true; }
      n := n + 4;
    }
    return false;
  }

  /** The length is read back off the name, names of different lengths differ, and none is
      longer than a DNS label may be. */
  lemma NameTellsLength(digest: string, m: nat, n: nat)
    requires |digest| == DIGEST_LENGTH && IsLength(m) && IsLength(n)
    ensures |Name(digest, n)| - |NS_PREFIX| == n && |Name(digest, n)| <= 62
    ensures Name(digest, m) == Name(digest, n) <==> m == n
  {
    assert |Name(digest, n)| == |NS_PREFIX| + n;
    assert |Name(digest, m)| == |NS_PREFIX| + m;
  }
}
