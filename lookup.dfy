/** Resolving a register name or a raw address to its descriptor, or to "not found". */
module Lookup {
  import opened Registers

  datatype Option<T> = None | Some(value: T)

  /** How a caller designates a register: by symbolic name or by raw address. */
  datatype RegisterId = Named(name: SmsrName) | At(address: nat)

  /** The first slot at or after `from`, short of the end sentinel, whose address is a. */
  function FindAddress(t: seq<Entry>, a: nat, from: nat): (r: Option<nat>)
    decreases |t| - from
    ensures r.Some? ==> from <= r.value < |t| - 1 && t[r.value].address == a
    ensures r.Some? ==> forall j | from <= j < r.value :: t[j].address != a
    ensures r.None? ==> forall j | from <= j < |t| - 1 :: t[j].address != a
  {
    if from + 1 >= |t| then None
    else if t[from].address == a then Some(from)
    else FindAddress(t, a, from + 1)
  }

  /** Lookup by name: the row the name selects, unless the name is a sentinel. */
  function ByName(n: SmsrName): (r: Option<Entry>)
    ensures r.None? <==> IsSentinelName(n)
    ensures r.Some? ==> r.value == Descriptor(n) && 1 <= Index(n) < Size - 1 && Row(Index(n)) == r.value
  {
    IndexSlot(n);
    SentinelSlots(n);
    if IsSentinelName(n) then None else Some(Descriptor(n))
  }

  /** Lookup by address: the first real row with that address; the sentinel slots are never searched. */
  function ByAddress(a: nat): (r: Option<Entry>)
    ensures r.None? <==> forall k | 1 <= k < Size - 1 :: Table()[k].address != a
    ensures r.Some? ==> exists k | 1 <= k < Size - 1 ::
      Table()[k] == r.value && r.value.address == a && forall j | 1 <= j < k :: Table()[j].address != a
  {
    match FindAddress(Table(), a, 1)
    case None => None
    case Some(k) => Some(Table()[k])
  }

  /** Lookup of either kind of register id: never a sentinel, by name the name's own row, by
      address a real row at that address. */
  function Resolve(id: RegisterId): (r: Option<Entry>)
    ensures r.Some? ==> !IsSentinelName(r.value.name)
    ensures id.Named? ==> (r.None? <==> IsSentinelName(id.name))
    ensures id.Named? && r.Some? ==> r.value == Descriptor(id.name)
    ensures id.At? ==> (r.None? <==> forall k | 1 <= k < Size - 1 :: Table()[k].address != id.address)
    ensures id.At? && r.Some? ==> r.value.address == id.address
  {
    match id
    case Named(n) => ByName(n)
    case At(a) => ByAddress(a)
  }

  /** FindAddress stops at the first slot, from `from` on, whose address is a. */
  lemma FindFirst(t: seq<Entry>, a: nat, from: nat, i: nat)
    requires from <= i < |t| - 1 && t[i].address == a
    requires forall j | from <= j < i :: t[j].address != a
    ensures FindAddress(t, a, from) == Some(i)
  {
  }

  /** A real slot that no earlier real slot shares an address with is what its address finds. */
  lemma FirstSlotAt(i: nat)
    requires 1 <= i < Size - 1
    requires forall j | 1 <= j < i :: Table()[j].address != Table()[i].address
    ensures ByAddress(Table()[i].address) == Some(Table()[i])
  {
    FindFirst(Table(), Table()[i].address, 1, i);
  }

  /** Neither sentinel is reachable, by name or by their shared address 0. */
  lemma SentinelsNeverResolve()
    ensures ByName(NoSuchSmsr) == None && ByName(LastEntry) == None
    ensures ByAddress(0) == None
    ensures forall id :: Resolve(id) != Some(Row(0)) && Resolve(id) != Some(Row(Size - 1))
  {
    Sentinels();
    AddressesDistinct();
    forall id
      ensures Resolve(id) != Some(Row(0)) && Resolve(id) != Some(Row(Size - 1))
    {
      match id
      case Named(n) =>
      case At(a) =>
    }
  }

  /** Name to address and back: the address of every real row finds that row again, except
      FIXED_CTR2, which repeats FIXED_CTR1's address. */
  lemma NameAddressRoundTrip(n: SmsrName)
    requires !IsSentinelName(n) && n != FixedCtr2
    ensures ByAddress(Descriptor(n).address) == ByName(n)
  {
    IndexSlot(n);
    SentinelSlots(n);
    var t, i := Table(), Index(n);
    assert t[i] == Descriptor(n);
    forall j | 1 <= j < i
      ensures t[j].address != t[i].address
    {
      AddressesDistinct();
    }
    FirstSlotAt(i);
  }

  /** Slot 33, FIXED_CTR1's, is the first real slot at address 0x30A. */
  lemma FirstAtFixedCounterAddress(a: nat)
    requires a == 0x30A
    ensures ByAddress(a) == Some(Table()[33])
  {
    var t := Table();
    forall j | 1 <= j < 33
      ensures t[j].address != a
    {
      SlotFacts(j);
    }
    FindFirst(t, a, 1, 33);
  }

  /** FIXED_CTR1 is what lookup by name finds in slot 33. */
  lemma FixedCounter1ByName()
    ensures ByName(FixedCtr1) == Some(Table()[33])
  {
  }

  /** The one duplicate address: both fixed counters 1 and 2 are at 0x30A, and lookup by that
      address resolves to the first of them. */
  lemma FixedCounterTieBreak()
    ensures Descriptor(FixedCtr1).address == 0x30A && Descriptor(FixedCtr2).address == 0x30A
    ensures ByAddress(Descriptor(FixedCtr2).address) == ByName(FixedCtr1)
  {
    FixedCounterSlots();
    FirstAtFixedCounterAddress(Descriptor(FixedCtr2).address);
    FixedCounter1ByName();
  }

  /** No address finds slot 34, FIXED_CTR2's: the slot before it has the same address. */
  lemma MissesFixedCounter2(a: nat)
    ensures ByAddress(a) != Some(Table()[34])
  {
    var t := Table();
    FixedCounterSlots();
    match FindAddress(t, a, 1)
    case None =>
    case Some(k) =>
      var previous := t[33];
      assert k == 34 ==> previous.address != a;
      SlotFacts(k);
      SlotFacts(34);
      assert t[k] != t[34];
  }

  /** No address resolves to FIXED_CTR2: it can be reached only by name. */
  lemma FixedCounter2OnlyByName()
    ensures ByName(FixedCtr2) == Some(Descriptor(FixedCtr2))
    ensures forall a :: ByAddress(a) != ByName(FixedCtr2)
  {
    FixedCounterSlots();
    forall a
      ensures ByAddress(a) != ByName(FixedCtr2)
    {
      MissesFixedCounter2(a);
    }
  }
}
