/** Two's-complement helpers for the C integer operations the simulator uses:
    `int64_t` comparisons, arithmetic right shift, rotation and narrowing casts.
    Every value is held as a bit-vector; signed readings are explicit. */
module Bits {
  const SignBit: bv64 := 0x8000_0000_0000_0000

  /** `(int64_t)x < 0`: bit 63 is set. */
  predicate Negative(x: bv64) {
    x & SignBit != 0
  }

  /** The integer an `int64_t` holding the bits of `x` denotes. */
  function Signed(x: bv64): int {
    if x < SignBit then x as int else x as int - 0x1_0000_0000_0000_0000
  }

  /** Bit 63 is the sign of the `int64_t` reading. */
  lemma SignedNegative(x: bv64)
    ensures Signed(x) < 0 <==> Negative(x)
  {
    SignBitIsHigh(x);
    assert x as int < 0x1_0000_0000_0000_0000;
  }

  /** Bit 63 is set exactly for the values from 2^63 up. */
  lemma SignBitIsHigh(x: bv64)
    ensures Negative(x) <==> x >= SignBit
  {
  }

  /** `(int64_t)x >> k` on a two's-complement machine: the vacated high bits
      are copies of bit 63. */
  function Asr(x: bv64, k: bv32): bv64
    requires k < 64
  {
    if Negative(x) then !((!x) >> k) else x >> k
  }

  /** `(int32_t)x >> k`, the 32-bit counterpart of `Asr`. */
  function Asr32(x: bv32, k: bv32): bv32
    requires k < 32
  {
    if x & 0x8000_0000 != 0 then !((!x) >> k) else x >> k
  }

  /** `uint64_t` addition and subtraction, which wrap modulo 2^64. Callers
      reason about them through the three lemmas below. */
  function Add64(x: bv64, y: bv64): bv64 {
    x + y
  }

  function Sub64(x: bv64, y: bv64): bv64 {
    x - y
  }

  lemma Add64Is(x: bv64, y: bv64)
    ensures Add64(x, y) == x + y
  {
  }

  lemma Sub64Is(x: bv64, y: bv64)
    ensures Sub64(x, y) == x - y
  {
  }

  /** Wrapping subtraction undoes wrapping addition. */
  lemma SubUndoesAdd(x: bv64, y: bv64)
    ensures Sub64(Add64(x, y), y) == x
  {
    Add64Is(x, y);
    Sub64Is(x + y, y);
  }

  /** Adding back what was subtracted restores the value. */
  lemma AddUndoesSub(x: bv64, y: bv64)
    ensures Add64(Sub64(x, y), y) == x
  {
    Sub64Is(x, y);
    Add64Is(x - y, y);
  }

  /** `p += o - k` followed by `p += k` is `p += o`. */
  lemma AddSubAdd(p: bv64, o: bv64, k: bv64)
    ensures Add64(Add64(p, Sub64(o, k)), k) == Add64(p, o)
  {
    Sub64Is(o, k);
    Add64Is(p, o - k);
    Add64Is(p + (o - k), k);
    Add64Is(p, o);
  }

  /** The distance from `p` to `p + z` is `z`. */
  lemma SubUndoesAddLeft(p: bv64, z: bv64)
    ensures Sub64(Add64(p, z), p) == z
  {
    Add64Is(p, z);
    Sub64Is(p + z, p);
  }

  /** `(x >> k) | (x << (64 - k))`, defined by C only for 0 < k < 64. */
  function Ror(x: bv64, k: bv32): bv64
    requires 0 < k < 64
  {
    (x >> k) | (x << (64 - k))
  }

  /** `(int64_t)(int32_t)x`: widening a 32-bit signed value. */
  function WidenSigned32(x: bv32): bv64 {
    Asr((x as bv64) << 32, 32)
  }

  /** Widening copies bit 31 into bits 63:32. */
  lemma WidenSigned32Bits(x: bv32)
    ensures WidenSigned32(x) == (if x & 0x8000_0000 != 0 then 0xFFFF_FFFF_0000_0000 else 0) | x as bv64
  {
    if x & 0x8000_0000 != 0 {
      assert Negative((x as bv64) << 32);
    } else {
      assert !Negative((x as bv64) << 32);
    }
  }

  /** `(uint8_t)x`: the low byte. */
  function Low8(x: bv64): bv8 {
    (x & 0xFF) as bv8
  }

  /** `(uint16_t)x`: the low halfword. */
  function Low16(x: bv64): bv16 {
    (x & 0xFFFF) as bv16
  }

  /** `(uint32_t)x`: the low word. */
  function Low32(x: bv64): bv32 {
    (x & 0xFFFF_FFFF) as bv32
  }

  lemma Low32Is(x: bv64)
    ensures Low32(x) == (x & 0xFFFF_FFFF) as bv32
  {
  }
}
