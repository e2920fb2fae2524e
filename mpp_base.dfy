/**
 * Status codes and the few C integer operations the encoder control layer
 * relies on: `ret |= r` on RK_S32 status codes, C's truncating `/ 8`, and
 * RK_U32 change masks.
 */
module MppBase {

  /** MPP_RET codes that the modelled entry points return. */
  const MPP_OK: int := 0
  const MPP_NOK: int := -1
  const MPP_ERR_NULL_PTR: int := -3
  const MPP_ERR_VALUE: int := -6

  /** A C pointer that may be NULL, or an optional result. */
  datatype Option<T> = None | Some(value: T)

  /** The range of RK_S32. */
  predicate IsInt32(x: int) {
    -0x8000_0000 <= x < 0x8000_0000
  }

  /** Two's-complement bit pattern of an RK_S32. */
  function ToBits(x: int): bv32
    requires IsInt32(x)
  {
    (if x < 0 then x + 0x1_0000_0000 else x) as bv32
  }

  /** The RK_S32 whose two's-complement bit pattern is `b`. */
  function FromBits(b: bv32): (x: int)
    ensures IsInt32(x)
  {
    var u := b as int;
    if u < 0x8000_0000 then u else u - 0x1_0000_0000
  }

  /** `a | b` on two RK_S32 values, as the aggregate configuration command
      combines the status codes of the domain merges with `ret |= ...`. */
  function RetOr(a: int, b: int): (r: int)
    requires IsInt32(a) && IsInt32(b)
  {
    FromBits(ToBits(a) | ToBits(b))
  }

  /** On the two codes a configuration merge can return, `|=` is "failed if
      either failed": MPP_ERR_VALUE absorbs, MPP_OK is neutral. */
  lemma RetOrOfMergeCodes(a: int, b: int)
    requires a == MPP_OK || a == MPP_ERR_VALUE
    requires b == MPP_OK || b == MPP_ERR_VALUE
    ensures RetOr(a, b) == if a == MPP_ERR_VALUE || b == MPP_ERR_VALUE then MPP_ERR_VALUE else MPP_OK
  {
    if a == MPP_OK && b == MPP_OK {
      assert ToBits(0) == 0;
    } else {
      assert ToBits(-6) == 0xFFFF_FFFA;
      assert ToBits(0) == 0;
      assert FromBits(0xFFFF_FFFA) == -6;
    }
  }

  /** `bits /= 8` on an RK_S32 in C: the quotient is truncated toward zero
      (Dafny's own `/` rounds toward minus infinity), so a negative bit count
      gives the negated byte count of its magnitude. */
  function BitsToBytes(bits: int): (n: int)
    ensures bits >= 0 ==> 0 <= n && 8 * n <= bits < 8 * n + 8
    ensures bits < 0 ==> n <= 0 && bits <= 8 * n < bits + 8
  {
    if bits >= 0 then bits / 8 else -((-bits) / 8)
  }

  /** An RK_U32 change mask, as the set of the positions of its set bits:
      `a | b` is `a + b`, a mask equal to 0 is `{}`, and the single-bit mask
      `1 << k` is `{k}`. */
  type Mask = set<nat>

  /** `change & (1 << bit)` tested as a C condition. */
  predicate Has(change: Mask, bit: nat) {
    bit in change
  }
}
