/**
  The component list of an environment's status: a list that is used as a map from names.
 */
module ComponentStatus {
  import opened Wrappers

  datatype ComponentPhase = Pending | Submitting | Deploying | Ready | Failed

  /** One entry of status.components. Times are nanoseconds. */
  datatype Entry = Entry(name: string, shared: bool, phase: ComponentPhase, retries: int, since: Option<int>,
                         reason: string)

  const MAX_DEPLOY_RETRIES := 5

  function Wrap32(x: int): int {
    (x + 0x8000_0000) % 0x1_0000_0000 - 0x8000_0000
  }

  /** The first entry with this name, or the length of the list. */
  function Find(cs: seq<Entry>, name: string): (i: nat)
    ensures i <= |cs|
    ensures i < |cs| ==> cs[i].name == name
    ensures forall j | 0 <= j < i :: cs[j].name != name
  {
    if cs == [] || cs[0].name == name then 0 else 1 + Find(cs[1..], name)
  }

  predicate Has(cs: seq<Entry>, name: string) {
    Find(cs, name) < |cs|
  }

  /** The entry of `name`, or the one it would start with. */
  function Get(cs: seq<Entry>, name: string): Entry {
    if Has(cs, name) then cs[Find(cs, name)] else Entry(name, false, Pending, 0, None, "")
  }

  function Put(cs: seq<Entry>, e: Entry): seq<Entry> {
    if Has(cs, e.name) then cs[Find(cs, e.name) := e] else cs + [e]
  }

  function SetPhase(cs: seq<Entry>, name: string, phase: ComponentPhase): seq<Entry> {
    Put(cs, Get(cs, name).(phase := phase))
  }

  function SetShared(cs: seq<Entry>, name: string): seq<Entry> {
    if Has(cs, name) then Put(cs, Get(cs, name).(shared := true)) else cs
  }

  function RecordFailure(cs: seq<Entry>, name: string, reason: string): seq<Entry> {
    var e := Get(cs, name);
    Put(cs, e.(retries := Wrap32(e.retries + 1), phase := Pending, since := None, reason := reason))
  }

  function ResetFailure(cs: seq<Entry>, name: string): seq<Entry> {
    if Has(cs, name) then Put(cs, Get(cs, name).(retries := 0, reason := "")) else cs
  }

  function SetSince(cs: seq<Entry>, name: string, now: int): seq<Entry> {
    if Has(cs, name) && Get(cs, name).since.None? then Put(cs, Get(cs, name).(since := Some(now))) else cs
  }

  predicate UniqueEntries(cs: seq<Entry>) {
    forall i, j | 0 <= i < j < |cs| :: cs[i].name != cs[j].name
  }

  /** Put is the update of a map: it changes what Get answers for one name, adds that name,
      and repeats none. */
  lemma PutIsUpdate(cs: seq<Entry>, e: Entry, name: string)
    ensures Get(Put(cs, e), name) == (if name == e.name then e else Get(cs, name))
    ensures Has(Put(cs, e), name) <==> name == e.name || Has(cs, name)
    ensures UniqueEntries(cs) ==> UniqueEntries(Put(cs, e))
  {
    var after := Put(cs, e);
    if name == e.name {
      FindIs(after, name, Find(cs, name));
    } else if Has(cs, name) {
      FindIs(after, name, Find(cs, name));
    } else {
      assert forall k | 0 <= k < |after| :: after[k].name != name;
    }
  }

  lemma FindIs(cs: seq<Entry>, name: string, i: nat)
    requires i < |cs| && cs[i].name == name && forall j | 0 <= j < i :: cs[j].name != name
    ensures Find(cs, name) == i
  {
  }

  lemma UniqueFind(cs: seq<Entry>, i: nat)
    requires UniqueEntries(cs) && i < |cs|
    ensures Find(cs, cs[i].name) == i
  {
  }

  /** What is true of an entry in a deployment: at most five retries, five only when it
      failed for good; a start of readiness is recorded while it deploys, and kept when
      ready. */
  predicate Sound(e: Entry) {
    && 0 <= e.retries <= MAX_DEPLOY_RETRIES
    && (e.retries == MAX_DEPLOY_RETRIES ==> e.phase == Failed)
    && (e.phase == Deploying ==> e.since.Some?)
    && (e.since.Some? ==> e.phase == Deploying || e.phase == Ready)
  }

  predicate AllSound(cs: seq<Entry>) {
    UniqueEntries(cs) && forall i | 0 <= i < |cs| :: Sound(cs[i])
  }

  lemma GetIsSound(cs: seq<Entry>, name: string)
    requires AllSound(cs)
    ensures Sound(Get(cs, name)) && Get(cs, name).name == name
  {
  }
}
