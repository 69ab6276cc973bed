/** Bit-level vocabulary for 64-bit model-specific register values. */
module Bits {

  /** Bit k of v, bit 0 being the least significant. */
  predicate Bit(v: bv64, k: bv64)
    requires k < 64
  {
    (v >> k) & 1 == 1
  }

  /** The low half of a register value: what rdmsr returns in EAX and wrmsr takes from it. */
  function Low(v: bv64): bv32 {
    (v & 0xFFFF_FFFF) as bv32
  }

  /** The high half of a register value: what rdmsr returns in EDX and wrmsr takes from it. */
  function High(v: bv64): bv32 {
    (v >> 32) as bv32
  }

  /** The 64-bit value whose halves are `high` and `low`, i.e. `(high << 32) | low`. */
  function Join(high: bv32, low: bv32): (v: bv64)
    ensures High(v) == high && Low(v) == low
  {
    ((high as bv64) << 32) | (low as bv64)
  }

  /** Splitting a value into halves and joining them again gives the value back. */
  lemma JoinSplit(v: bv64)
    ensures Join(High(v), Low(v)) == v
  {
  }

  // Bit k of a combination is the same combination of the operands' bits k; the merge
  // theorem is assembled from these three, which keeps each bit-vector proof small.

  lemma BitOr(x: bv64, y: bv64, k: bv64)
    requires k < 64
    ensures Bit(x | y, k) == (Bit(x, k) || Bit(y, k))
  {
  }

  lemma BitAnd(x: bv64, y: bv64, k: bv64)
    requires k < 64
    ensures Bit(x & y, k) == (Bit(x, k) && Bit(y, k))
  {
  }

  lemma BitNot(x: bv64, k: bv64)
    requires k < 64
    ensures Bit(!x, k) == !Bit(x, k)
  {
  }
}
