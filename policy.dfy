/** The masked access policy: reads return the whole register; writes are a read-modify-write
    that takes the caller's bits only where the descriptor's write mask is set. */
module Policy {
  import opened Bits
  import opened Registers
  import opened Lookup

  /** The registers of one execution context, by address. An address missing from the map is
      one the raw rdmsr/wrmsr primitive rejects. */
  type Hardware = map<nat, bv64>

  datatype Error = UnsupportedRegister | HardwareAccessError

  datatype Result<T> = Ok(value: T) | Err(error: Error)

  /** The register file after a write, and the value the write committed. */
  datatype Commit = Commit(hw: Hardware, value: bv64)

  /** A descriptor's 64-bit write mask, `(high << 32) | low`. */
  function WriteMask(e: Entry): (m: bv64)
    ensures Low(m) == e.lowWriteMask && High(m) == e.highWriteMask
  {
    Join(e.highWriteMask, e.lowWriteMask)
  }

  /** The value a read-modify-write commits: `(current & ~mask) | (requested & mask)`. */
  function Merge(current: bv64, requested: bv64, mask: bv64): (r: bv64)
    ensures r & !mask == current & !mask
    ensures r & mask == requested & mask
  {
    (current & !mask) | (requested & mask)
  }

  /** Reading a resolved descriptor returns the full, unmasked register value. */
  function ReadRegister(hw: Hardware, d: Option<Entry>): (r: Result<bv64>)
    ensures d.None? ==> r == Err(UnsupportedRegister)
    ensures d.Some? && d.value.address !in hw ==> r == Err(HardwareAccessError)
    ensures d.Some? && d.value.address in hw ==> r == Ok(hw[d.value.address])
  {
    match d
    case None => Err(UnsupportedRegister)
    case Some(e) => if e.address in hw then Ok(hw[e.address]) else Err(HardwareAccessError)
  }

  /** Writing a resolved descriptor: read the register, merge the request under the write mask
      and store the merged value, as one atomic step. */
  function WriteRegister(hw: Hardware, d: Option<Entry>, requested: bv64): (r: Result<Commit>)
    ensures d.None? ==> r == Err(UnsupportedRegister)
    ensures d.Some? && d.value.address !in hw ==> r == Err(HardwareAccessError)
    ensures d.Some? && d.value.address in hw ==> r.Ok?
    ensures r.Ok? ==>
      && d.Some? && d.value.address in hw
      && r.value.hw == hw[d.value.address := r.value.value]
      && r.value.value == Merge(hw[d.value.address], requested, WriteMask(d.value))
  {
    match d
    case None => Err(UnsupportedRegister)
    case Some(e) =>
      if e.address !in hw then Err(HardwareAccessError)
      else
        var committed := Merge(hw[e.address], requested, WriteMask(e));
        Ok(Commit(hw[e.address := committed], committed))
  }

  /** The caller-facing read by name or address: unsupported exactly when the id resolves to
      nothing, and otherwise the whole value at the resolved row's address. */
  function Read(hw: Hardware, id: RegisterId): (r: Result<bv64>)
    ensures r == Err(UnsupportedRegister) <==> Resolve(id).None?
    ensures r.Ok? <==> Resolve(id).Some? && Resolve(id).value.address in hw
    ensures r.Ok? ==> r.value == hw[Resolve(id).value.address]
  {
    ReadRegister(hw, Resolve(id))
  }

  /** The caller-facing write by name or address: unsupported exactly when the id resolves to
      nothing, and otherwise the merge under the resolved row's mask, stored at its address only. */
  function Write(hw: Hardware, id: RegisterId, requested: bv64): (r: Result<Commit>)
    ensures r == Err(UnsupportedRegister) <==> Resolve(id).None?
    ensures r.Ok? <==> Resolve(id).Some? && Resolve(id).value.address in hw
    ensures r.Ok? ==>
      var e := Resolve(id).value;
      && r.value.value == Merge(hw[e.address], requested, WriteMask(e))
      && r.value.hw == hw[e.address := r.value.value]
  {
    WriteRegister(hw, Resolve(id), requested)
  }

  /** Bit by bit: a protected bit keeps its old value and a writable bit takes the requested one. */
  lemma MergeBit(current: bv64, requested: bv64, mask: bv64, k: bv64)
    requires k < 64
    ensures Bit(Merge(current, requested, mask), k) == if Bit(mask, k) then Bit(requested, k) else Bit(current, k)
  {
    BitOr(current & !mask, requested & mask, k);
    BitAnd(current, !mask, k);
    BitAnd(requested, mask, k);
    BitNot(mask, k);
  }

  lemma MergeBits(current: bv64, requested: bv64, mask: bv64)
    ensures forall k: bv64 | k < 64 ::
      Bit(Merge(current, requested, mask), k) == if Bit(mask, k) then Bit(requested, k) else Bit(current, k)
  {
    forall k: bv64 | k < 64
      ensures Bit(Merge(current, requested, mask), k) == if Bit(mask, k) then Bit(requested, k) else Bit(current, k)
    {
      MergeBit(current, requested, mask, k);
    }
  }

  /** The two clauses of Merge's contract determine its result. */
  lemma MergeUnique(current: bv64, requested: bv64, mask: bv64, x: bv64)
    requires x & !mask == current & !mask && x & mask == requested & mask
    ensures x == Merge(current, requested, mask)
  {
  }

  /** The merge done on each 32-bit half with that half's mask agrees with the 64-bit merge. */
  lemma MergeByHalves(current: bv64, requested: bv64, e: Entry)
    ensures Low(Merge(current, requested, WriteMask(e))) ==
      (Low(current) & !e.lowWriteMask) | (Low(requested) & e.lowWriteMask)
    ensures High(Merge(current, requested, WriteMask(e))) ==
      (High(current) & !e.highWriteMask) | (High(requested) & e.highWriteMask)
  {
  }

  /** Writing back what was read changes nothing. */
  lemma MergeCurrent(current: bv64, mask: bv64)
    ensures Merge(current, current, mask) == current
  {
  }

  /** Applying the same request twice gives what applying it once gives. */
  lemma MergeIdempotent(current: bv64, requested: bv64, mask: bv64)
    ensures Merge(Merge(current, requested, mask), requested, mask) == Merge(current, requested, mask)
  {
  }

  /** With nothing writable the write keeps the old value; with everything writable it stores the request. */
  lemma MergeExtremes(current: bv64, requested: bv64)
    ensures Merge(current, requested, Join(NoWrite, NoWrite)) == current
    ensures Merge(current, requested, Join(WriteAll, WriteAll)) == requested
  {
  }

  /** A read and a write of the same register fail alike: unknown ids with UnsupportedRegister,
      and registers the hardware rejects with HardwareAccessError. */
  lemma ReadWriteFailAlike(hw: Hardware, d: Option<Entry>, requested: bv64)
    ensures ReadRegister(hw, d).Err? <==> WriteRegister(hw, d, requested).Err?
    ensures ReadRegister(hw, d).Err? ==> ReadRegister(hw, d).error == WriteRegister(hw, d, requested).error
  {
  }

  /** After a write, reading the same register returns exactly the committed value. */
  lemma ReadAfterWrite(hw: Hardware, d: Option<Entry>, requested: bv64)
    requires WriteRegister(hw, d, requested).Ok?
    ensures ReadRegister(WriteRegister(hw, d, requested).value.hw, d) == Ok(WriteRegister(hw, d, requested).value.value)
  {
  }

  /** Writing back the value just read is a no-op on every register. */
  lemma WriteBackIsNoOp(hw: Hardware, d: Option<Entry>)
    requires ReadRegister(hw, d).Ok?
    ensures WriteRegister(hw, d, ReadRegister(hw, d).value) == Ok(Commit(hw, ReadRegister(hw, d).value))
  {
    var a := d.value.address;
    MergeCurrent(hw[a], WriteMask(d.value));
    assert hw[a := hw[a]] == hw;
  }

  /** Repeating a write commits the same value and leaves the registers as the first write did. */
  lemma WriteIdempotent(hw: Hardware, d: Option<Entry>, requested: bv64)
    requires WriteRegister(hw, d, requested).Ok?
    ensures WriteRegister(WriteRegister(hw, d, requested).value.hw, d, requested) == WriteRegister(hw, d, requested)
  {
    var a := d.value.address;
    var once := WriteRegister(hw, d, requested).value;
    MergeIdempotent(hw[a], requested, WriteMask(d.value));
    assert once.hw[a := once.value] == once.hw;
  }
}
