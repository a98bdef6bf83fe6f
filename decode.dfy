/** The shared helpers of the modular engine: field extractors, sign and
    register extension, the add/subtract core, flag update and the byte,
    halfword and doubleword accessors built on the 32-bit word store. */
module Decode {
  import opened Bits
  import opened Shell

  // ---------------------------------------------------------------------
  // Field extractors. Each returns the fields the C code passes back through
  // out-pointers; the reconstruction clause says no bit is read twice and the
  // fields together are exactly the bits the instruction group defines.
  // ---------------------------------------------------------------------

  /** Fields of the immediate group (ADD/ADDS/SUBS immediate). */
  datatype IGroup = IGroup(imm12: bv32, shift: bv32, d: bv32, n: bv32)

  function DecodeIGroup(instr: bv32): (f: IGroup)
    ensures f.imm12 < 0x1000 && f.shift < 4 && f.d < 32 && f.n < 32
    ensures (f.shift << 22) | (f.imm12 << 10) | (f.n << 5) | f.d == instr & 0xFF_FFFF
  {
    IGroup((instr >> 10) & 0xFFF, (instr >> 22) & 0x3, instr & 0x1F, (instr >> 5) & 0x1F)
  }

  /** Fields of the extended-register group (ADD/ADDS/SUBS/ORR register). */
  datatype RGroup = RGroup(opt: bv32, imm3: bv32, d: bv32, n: bv32, m: bv32)

  function DecodeRGroup(instr: bv32): (f: RGroup)
    ensures f.opt < 8 && f.imm3 < 8 && f.d < 32 && f.n < 32 && f.m < 32
    ensures (f.m << 16) | (f.opt << 13) | (f.imm3 << 10) | (f.n << 5) | f.d == instr & 0x1F_FFFF
  {
    RGroup((instr >> 13) & 0x7, (instr >> 10) & 0x7, instr & 0x1F, (instr >> 5) & 0x1F, (instr >> 16) & 0x1F)
  }

  /** Fields of the shifted-register group (ANDS, EOR). */
  datatype ShiftedRegister = ShiftedRegister(shift: bv32, imm6: bv32, d: bv32, n: bv32, m: bv32)

  function DecodeShiftedRegister(instr: bv32): (f: ShiftedRegister)
    ensures f.shift < 4 && f.imm6 < 64 && f.d < 32 && f.n < 32 && f.m < 32
    ensures (f.shift << 22) | (f.m << 16) | (f.imm6 << 10) | (f.n << 5) | f.d == instr & 0xDF_FFFF
  {
    ShiftedRegister((instr >> 22) & 0x3, (instr >> 10) & 0x3F, instr & 0x1F, (instr >> 5) & 0x1F, (instr >> 16) & 0x1F)
  }

  /** Fields of the load/store group. The C out-parameters are `int32_t`, but
      every field is non-negative and narrower than 10 bits. */
  datatype MemAccess = MemAccess(imm9: bv32, n: bv32, t: bv32)

  function DecodeMemAccess(instr: bv32): (f: MemAccess)
    ensures f.imm9 < 0x200 && f.n < 32 && f.t < 32
    ensures (f.imm9 << 12) | (f.n << 5) | f.t == instr & 0x1F_F3FF
  {
    MemAccess((instr >> 12) & 0x1FF, (instr >> 5) & 0x1F, instr & 0x1F)
  }

  /** Fields of CBZ/CBNZ. `offset` is an `uint32_t` out-parameter, so the
      64-bit byte offset is cut to its low 32 bits. */
  datatype CondBranch = CondBranch(t: bv32, offset: bv32)

  function DecodeConditionalBranch(instr: bv32): (f: CondBranch)
    ensures f.t == instr & 0x1F
    ensures f.offset & 3 == 0
    ensures (f.offset >> 2) & 0x7_FFFF == (instr >> 5) & 0x7_FFFF
    ensures f.offset >> 21 == if instr & 0x80_0000 != 0 then 0x7FF else 0
  {
    var imm := SignExtend(((instr >> 5) & 0x7_FFFF) as bv64, 19);
    CondBranch(instr & 0x1F, Low32(imm << 2))
  }

  // ---------------------------------------------------------------------
  // Integer helpers.
  // ---------------------------------------------------------------------

  /** `sign_extend(value, bits)`: `(value ^ mask) - mask` with
      `mask = 1 << (bits - 1)`, in 64-bit two's complement. For a value that
      fits in `bits` bits, bit `bits - 1` is copied into every higher bit. */
  function SignExtend(value: bv64, bits: bv32): (r: bv64)
    requires 0 < bits <= 64
    ensures value < (1 << (bits - 1)) ==> r == value
    ensures bits < 64 && (1 << (bits - 1)) <= value < (1 << bits) ==> r == value - (1 << bits)
  {
    var mask: bv64 := 1 << (bits - 1);
    (value ^ mask) - mask
  }

  /** With a 64-bit width `sign_extend` is the identity on every value below
      2^63, so a 9-bit offset passed through it stays in 0..511. */
  lemma SignExtend64Identity(value: bv64)
    requires value < 0x8000_0000_0000_0000
    ensures SignExtend(value, 64) == value
  {
  }

  /** A 19-bit field with bit 18 clear sign-extends to itself. */
  lemma SignExtend19NonNegative(value: bv64)
    requires value < 0x4_0000
    ensures SignExtend(value, 19) == value
  {
  }

  /** A 19-bit field with bit 18 set sign-extends to a value whose bits
      63:18 are all set and whose low 19 bits are the field: a value in
      [-2^18, 0). */
  lemma SignExtend19Negative(value: bv64)
    requires 0x4_0000 <= value < 0x8_0000
    ensures SignExtend(value, 19) & 0x7_FFFF == value
    ensures SignExtend(value, 19) >> 18 == 0x3FFF_FFFF_FFFF
  {
    NegativeFieldBits(value, SignExtend(value, 19));
  }

  lemma NegativeFieldBits(value: bv64, e: bv64)
    requires 0x4_0000 <= value < 0x8_0000
    requires e == value - 0x8_0000
    ensures e & 0x7_FFFF == value && e >> 18 == 0x3FFF_FFFF_FFFF
  {
  }

  /** The switch of `extend_register`: options 0, 1, 2 keep the low 8, 16,
      32 bits; options 4, 5, 6 go through an `int8_t`, `int16_t`, `int32_t`
      cast; every other option keeps the value. */
  function ExtendValue(value: bv64, option: bv32): (r: bv64)
    ensures option == 0 ==> r == value & 0xFF
    ensures option == 1 ==> r == value & 0xFFFF
    ensures option == 2 ==> r == value & 0xFFFF_FFFF
    ensures option == 3 || option >= 7 ==> r == value
  {
    if option == 0 then value & 0xFF
    else if option == 1 then value & 0xFFFF
    else if option == 2 then value & 0xFFFF_FFFF
    else if option == 4 then Asr((value & 0xFF) << 56, 56)
    else if option == 5 then Asr((value & 0xFFFF) << 48, 48)
    else if option == 6 then Asr((value & 0xFFFF_FFFF) << 32, 32)
    else value
  }

  /** `(uint64_t)(int8_t)x` for a byte `x` is `sign_extend(x, 8)`. */
  lemma Cast8SignExtends(x: bv64)
    requires x < 0x100
    ensures Asr(x << 56, 56) == SignExtend(x, 8)
  {
    if x & 0x80 != 0 {
      assert Negative(x << 56);
    } else {
      assert !Negative(x << 56);
    }
  }

  /** `(uint64_t)(int16_t)x` for a halfword `x` is `sign_extend(x, 16)`. */
  lemma Cast16SignExtends(x: bv64)
    requires x < 0x1_0000
    ensures Asr(x << 48, 48) == SignExtend(x, 16)
  {
    if x & 0x8000 != 0 {
      assert Negative(x << 48);
    } else {
      assert !Negative(x << 48);
    }
  }

  /** `(uint64_t)(int32_t)x` for a word `x` is `sign_extend(x, 32)`. */
  lemma Cast32SignExtends(x: bv64)
    requires x < 0x1_0000_0000
    ensures Asr(x << 32, 32) == SignExtend(x, 32)
  {
    if x & 0x8000_0000 != 0 {
      assert Negative(x << 32);
    } else {
      assert !Negative(x << 32);
    }
  }

  /** The casts of options 4, 5 and 6 are sign extension of the low 8, 16 and
      32 bits, exactly as `sign_extend` computes it. */
  lemma ExtendValueSignExtends(value: bv64, option: bv32)
    ensures option == 4 ==> ExtendValue(value, option) == SignExtend(value & 0xFF, 8)
    ensures option == 5 ==> ExtendValue(value, option) == SignExtend(value & 0xFFFF, 16)
    ensures option == 6 ==> ExtendValue(value, option) == SignExtend(value & 0xFFFF_FFFF, 32)
  {
    if option == 4 {
      Cast8SignExtends(value & 0xFF);
    } else if option == 5 {
      Cast16SignExtends(value & 0xFFFF);
    } else if option == 6 {
      Cast32SignExtends(value & 0xFFFF_FFFF);
    }
  }

  /** `extend_register(value, option, imm3)`: the extended value shifted left
      by `imm3`, dropping the bits shifted out. Option 3 with no shift hands
      the register back unchanged. */
  function ExtendRegister(value: bv64, option: bv32, imm3: bv32): (r: bv64)
    requires imm3 < 64
    ensures option == 3 && imm3 == 0 ==> r == value
  {
    ExtendValue(value, option) << imm3
  }

  /** The second operand of `calculate_mathOps`: the immediate, moved up 12
      bits when `opt == 1` (the shift is done in 32 bits), or the extended
      register `m`. */
  function MathOperand2(cur: CpuState, m: bv32, opt: bv32, imm3: bv32, isImm: bool): bv64
    requires m < 32 && (isImm || imm3 < 64)
  {
    if isImm then (if opt == 1 then (imm3 << 12) as bv64 else imm3 as bv64)
    else ExtendRegister(cur.regs[m], opt, imm3)
  }

  /** `calculate_mathOps`: register `n` of CURRENT_STATE plus or minus the
      second operand, wrapping modulo 2^64. Only CURRENT_STATE is read. The C
      code picks `REGS[31]` when `n == 31` and `REGS[n]` otherwise, which is
      the same register either way. */
  function CalculateMathOps(cur: CpuState, n: bv32, m: bv32, opt: bv32, imm3: bv32,
                            isSubtraction: bool, isImm: bool): bv64
    requires n < 32 && m < 32 && (isImm || imm3 < 64)
  {
    var op1 := cur.regs[n];
    var op2 := MathOperand2(cur, m, opt, imm3, isImm);
    if isSubtraction then Sub64(op1, op2) else Add64(op1, op2)
  }

  /** One unfolding of `CalculateMathOps`, for proofs that go on to reason
      about the arithmetic. */
  lemma MathOpsUnfold(cur: CpuState, n: bv32, m: bv32, opt: bv32, imm3: bv32, isSubtraction: bool, isImm: bool)
    requires n < 32 && m < 32 && (isImm || imm3 < 64)
    ensures var op2 := MathOperand2(cur, m, opt, imm3, isImm);
      CalculateMathOps(cur, n, m, opt, imm3, isSubtraction, isImm) ==
        if isSubtraction then Sub64(cur.regs[n], op2) else Add64(cur.regs[n], op2)
  {
  }

  /** For a 12-bit immediate the 32-bit shift of `imm << 12` loses nothing:
      the immediate operand is `imm`, or `imm` moved up 12 bits in 64 bits when `opt == 1`. */
  lemma ImmediateOperand(cur: CpuState, opt: bv32, imm: bv32)
    requires imm < 0x1000
    ensures MathOperand2(cur, 0, opt, imm, true) ==
      if opt == 1 then (imm as bv64) << 12 else imm as bv64
  {
  }

  /** The register form's second operand is `extend_register(REGS[m], opt, imm3)`. */
  lemma RegisterOperand(cur: CpuState, m: bv32, opt: bv32, imm3: bv32)
    requires m < 32 && imm3 < 64
    ensures MathOperand2(cur, m, opt, imm3, false) == ExtendRegister(cur.regs[m], opt, imm3)
  {
  }

  /** The register form with option 3 and no shift is a plain 64-bit add or
      subtract of registers `n` and `m`. */
  lemma MathOpsPlainRegisters(cur: CpuState, n: bv32, m: bv32, isSubtraction: bool)
    requires n < 32 && m < 32
    ensures CalculateMathOps(cur, n, m, 3, 0, isSubtraction, false) ==
      if isSubtraction then Sub64(cur.regs[n], cur.regs[m]) else Add64(cur.regs[n], cur.regs[m])
  {
    MathOpsUnfold(cur, n, m, 3, 0, isSubtraction, false);
    assert MathOperand2(cur, m, 3, 0, false) == cur.regs[m];
  }

  /** Subtraction undoes addition: writing the sum back to register `n` and
      subtracting the same second operand restores register `n`, provided
      the second operand does not itself read register `n`. */
  lemma MathOpsSubtractUndoesAdd(cur: CpuState, n: bv32, m: bv32, opt: bv32, imm3: bv32, isImm: bool)
    requires n < 32 && m < 32 && (isImm || imm3 < 64)
    requires isImm || m != n
    ensures var sum := CalculateMathOps(cur, n, m, opt, imm3, false, isImm);
      CalculateMathOps(cur.(regs := cur.regs[n := sum]), n, m, opt, imm3, true, isImm) == cur.regs[n]
  {
    var sum := CalculateMathOps(cur, n, m, opt, imm3, false, isImm);
    var cur2 := cur.(regs := cur.regs[n := sum]);
    MathOpsUnfold(cur, n, m, opt, imm3, false, isImm);
    MathOpsUnfold(cur2, n, m, opt, imm3, true, isImm);
    var op2 := MathOperand2(cur, m, opt, imm3, isImm);
    assert MathOperand2(cur2, m, opt, imm3, isImm) == op2;
    SubUndoesAdd(cur.regs[n], op2);
  }

  /** The flags `update_flags(result)` leaves in a state copy. */
  function WithFlags(c: CpuState, result: bv64): CpuState {
    c.(flagZ := result == 0, flagN := Negative(result))
  }

  /** `update_flags(result)`: Z when the result is zero, N when it is
      negative as an `int64_t`; nothing else changes. */
  method UpdateFlags(m: Machine, result: bv64)
    modifies m`next
    ensures m.next == WithFlags(old(m.next), result)
    ensures m.next.flagZ == (result == 0) && m.next.flagN == (Signed(result) < 0)
    ensures m.next.regs == old(m.next.regs) && m.next.pc == old(m.next.pc)
  {
    SignedNegative(result);
    m.next := m.next.(flagZ := result == 0, flagN := Negative(result));
  }

  // ---------------------------------------------------------------------
  // Memory accessors. The store holds 32-bit words; a smaller or larger
  // access reads or rewrites the words that contain it.
  // ---------------------------------------------------------------------

  /** The word address that holds byte address `addr`: `addr & ~0x3`. */
  function WordOf(addr: bv64): bv64 {
    addr & !3
  }

  /** Byte `k` (0 is the least significant) of a word. */
  function ByteOf(word: bv32, k: bv64): bv8
    requires k < 4
  {
    ((word >> (k * 8)) & 0xFF) as bv8
  }

  /** Halfword `h` (0 is the less significant) of a word. */
  function HalfOf(word: bv32, h: bv64): bv16
    requires h < 2
  {
    ((word >> (h * 16)) & 0xFFFF) as bv16
  }

  /** `mem_read_8(addr)`: byte `addr & 3` of the containing word. */
  function MemRead8(mem: Store, addr: bv64): bv8 {
    ByteOf(MemRead32(mem, WordOf(addr)), addr & 3)
  }

  /** `mem_read_16(addr)`: half `(addr & 3) >> 1` of the containing word
      (written `>> 1`, the same on unsigned values); an odd address only draws
      a warning. */
  function MemRead16(mem: Store, addr: bv64): bv16 {
    HalfOf(MemRead32(mem, WordOf(addr)), (addr & 3) >> 1)
  }

  /** `mem_read_64(addr)`: an aligned address joins the words at `addr` (low)
      and `addr + 4` (high); any other address splices the two words of its
      8-aligned block as the C code does. */
  function MemRead64(mem: Store, addr: bv64): bv64 {
    var aligned := addr & !7;
    var offset := addr & 7;
    if offset != 0 then
      var low := MemRead32(mem, aligned) as bv64;
      var high := MemRead32(mem, Add64(aligned, 4)) as bv64;
      if offset <= 4 then (high << (8 * (4 - offset))) | (low >> (8 * offset))
      else (high >> (8 * (offset - 4))) | (low << (8 * (8 - offset)))
    else
      (MemRead32(mem, addr) as bv64) | ((MemRead32(mem, Add64(addr, 4)) as bv64) << 32)
  }

  /** `(word & ~mask) | (value << (k * 8))` with `mask = 0xFF << (k * 8)`:
      the word with byte `k` replaced. */
  function InsertByte(word: bv32, k: bv64, value: bv8): bv32
    requires k < 4
  {
    var mask: bv32 := 0xFF << (k * 8);
    (word & !mask) | ((value as bv32) << (k * 8))
  }

  /** `(word & ~mask) | (value << (h * 16))` with `mask = 0xFFFF << (h * 16)`:
      the word with halfword `h` replaced. */
  function InsertHalf(word: bv32, h: bv64, value: bv16): bv32
    requires h < 2
  {
    var mask: bv32 := 0xFFFF << (h * 16);
    (word & !mask) | ((value as bv32) << (h * 16))
  }

  lemma InsertByteSame(word: bv32, k: bv64, value: bv8)
    requires k < 4
    ensures ByteOf(InsertByte(word, k, value), k) == value
  {
  }

  lemma InsertByteOther(word: bv32, k: bv64, value: bv8, j: bv64)
    requires k < 4 && j < 4 && j != k
    ensures ByteOf(InsertByte(word, k, value), j) == ByteOf(word, j)
  {
  }

  lemma InsertHalfSame(word: bv32, h: bv64, value: bv16)
    requires h < 2
    ensures HalfOf(InsertHalf(word, h, value), h) == value
  {
    if h == 0 {
      InsertLowHalf(word, value);
    } else {
      InsertHighHalf(word, value);
    }
  }

  lemma InsertLowHalf(word: bv32, value: bv16)
    ensures HalfOf(InsertHalf(word, 0, value), 0) == value
  {
  }

  lemma InsertHighHalf(word: bv32, value: bv16)
    ensures HalfOf(InsertHalf(word, 1, value), 1) == value
  {
  }

  /** Replacing halfword `h` leaves the bytes of the other half alone and
      puts the value's low byte at byte `2h` and its high byte at `2h + 1`. */
  lemma InsertHalfBytes(word: bv32, h: bv64, value: bv16, j: bv64)
    requires h < 2 && j < 4
    ensures j >> 1 != h ==> ByteOf(InsertHalf(word, h, value), j) == ByteOf(word, j)
    ensures j == h << 1 ==> ByteOf(InsertHalf(word, h, value), j) == (value & 0xFF) as bv8
    ensures j == (h << 1) | 1 ==> ByteOf(InsertHalf(word, h, value), j) == (value >> 8) as bv8
  {
  }

  /** The store after `mem_write_8(addr, value)`. */
  function StoreByte(mem: Store, addr: bv64, value: bv8): Store {
    var a := WordOf(addr);
    StoreWord(mem, a, InsertByte(MemRead32(mem, a), addr & 3, value))
  }

  /** The store after `mem_write_16(addr, value)`. */
  function StoreHalf(mem: Store, addr: bv64, value: bv16): Store {
    var a := WordOf(addr);
    StoreWord(mem, a, InsertHalf(MemRead32(mem, a), (addr & 3) >> 1, value))
  }

  /** Two byte addresses in the same word differ in their low two bits. */
  lemma SameWordByte(a: bv64, b: bv64)
    requires WordOf(a) == WordOf(b) && a != b
    ensures a & 3 != b & 3
  {
  }

  /** Two byte addresses in the same word but in different aligned halfwords
      sit in different halves of the word. */
  lemma SameWordHalf(a: bv64, b: bv64)
    requires WordOf(a) == WordOf(b) && a & !1 != b & !1
    ensures (a & 3) >> 1 != (b & 3) >> 1
  {
  }

  /** A byte written by `mem_write_8` reads back. */
  lemma StoreByteReadsBack(mem: Store, addr: bv64, value: bv8)
    ensures MemRead8(StoreByte(mem, addr, value), addr) == value
  {
    InsertByteSame(MemRead32(mem, WordOf(addr)), addr & 3, value);
  }

  /** `mem_write_8` changes no other byte: neither the other three bytes of
      its word nor any other word. */
  lemma StoreByteFrame(mem: Store, addr: bv64, value: bv8, b: bv64)
    requires b != addr
    ensures MemRead8(StoreByte(mem, addr, value), b) == MemRead8(mem, b)
  {
    if WordOf(b) == WordOf(addr) {
      SameWordByte(b, addr);
      InsertByteOther(MemRead32(mem, WordOf(addr)), addr & 3, value, b & 3);
    }
  }

  /** A halfword written by `mem_write_16` reads back. */
  lemma StoreHalfReadsBack(mem: Store, addr: bv64, value: bv16)
    ensures MemRead16(StoreHalf(mem, addr, value), addr) == value
  {
    InsertHalfSame(MemRead32(mem, WordOf(addr)), (addr & 3) >> 1, value);
  }

  /** `mem_write_16` changes no byte outside the aligned halfword holding
      `addr`. */
  lemma StoreHalfFrame(mem: Store, addr: bv64, value: bv16, b: bv64)
    requires b & !1 != addr & !1
    ensures MemRead8(StoreHalf(mem, addr, value), b) == MemRead8(mem, b)
  {
    if WordOf(b) == WordOf(addr) {
      SameWordHalf(b, addr);
      InsertHalfBytes(MemRead32(mem, WordOf(addr)), (addr & 3) >> 1, value, b & 3);
    }
  }

  /** The C code shifts `1U` by 32 when the offset within the 8-byte block is
      4; that is undefined, so the model does not go there. */
  predicate StoreDoubleDefined(addr: bv64) {
    addr & 7 != 4
  }

  /** The second word `mem_write_64` writes for an offset of 1 to 3 within
      the block: the value shifted down, over the low `offset` bytes kept
      from the old word. */
  function SplicedHigh(value: bv64, offset: bv64, oldHigh: bv32): bv32
    requires 1 <= offset <= 3
  {
    var keep: bv32 := (1 << (8 * offset)) - 1;
    Low32(value >> (8 * (4 - offset))) | (oldHigh & keep)
  }

  /** The first word `mem_write_64` writes for an offset of 5 to 7: the low
      `8 - offset` bytes kept from the old word, under the value shifted up. */
  function SplicedLow(value: bv64, offset: bv64, oldLow: bv32): bv32
    requires 5 <= offset <= 7
  {
    var k := 8 * (8 - offset);
    var keep: bv32 := (1 << k) - 1;
    Low32(((oldLow & keep) as bv64) | ((value << k) & (!keep as bv64)))
  }

  /** The store after `mem_write_64(addr, value)`. An aligned address puts the
      low word at `addr` and the high word at `addr + 4`; any other address
      writes the two words of its 8-aligned block as the C code does. */
  function StoreDouble(mem: Store, addr: bv64, value: bv64): Store
    requires StoreDoubleDefined(addr)
  {
    var aligned := addr & !7;
    var offset := addr & 7;
    if offset != 0 then
      if offset <= 4 then
        var mem1 := StoreWord(mem, aligned, Low32(value));
        StoreWord(mem1, Add64(aligned, 4), SplicedHigh(value, offset, MemRead32(mem1, Add64(aligned, 4))))
      else
        var word0 := SplicedLow(value, offset, MemRead32(mem, aligned));
        StoreWord(StoreWord(mem, aligned, word0), Add64(aligned, 4), SpilledHigh(value, offset))
    else
      StoreWord(StoreWord(mem, addr, Low32(value)), Add64(addr, 4), Low32((value >> 32) & 0xFFFF_FFFF))
  }

  /** The second word `mem_write_64` writes for an offset of 5 to 7: the
      bytes of the value that did not fit in the first word. */
  function SpilledHigh(value: bv64, offset: bv64): bv32
    requires 5 <= offset <= 7
  {
    Low32(value >> (8 * (8 - offset)))
  }

  /** Every `mem_write_64` writes only the two words of the 8-aligned block
      holding `addr`. */
  lemma StoreDoubleFrame(mem: Store, addr: bv64, value: bv64, a: bv64)
    requires StoreDoubleDefined(addr)
    requires a != addr & !7 && a != Add64(addr & !7, 4)
    ensures MemRead32(StoreDouble(mem, addr, value), a) == MemRead32(mem, a)
  {
    if addr & 7 == 0 {
      AlignedBlock(addr);
    }
  }

  /** An 8-aligned address is its own block address. */
  lemma AlignedBlock(addr: bv64)
    requires addr & 7 == 0
    ensures addr & !7 == addr
  {
  }

  /** Writing a doubleword at an 8-aligned address and reading it back gives
      the value written. */
  lemma DoubleRoundTrip(mem: Store, addr: bv64, value: bv64)
    requires addr & 7 == 0
    ensures MemRead64(StoreDouble(mem, addr, value), addr) == value
  {
    var r := StoreDouble(mem, addr, value);
    var low, high := Low32(value), Low32((value >> 32) & 0xFFFF_FFFF);
    Add64Is(addr, 4);
    assert MemRead32(r, addr) == low;
    assert MemRead32(r, Add64(addr, 4)) == high;
    AlignedRead64(r, addr);
    Low32Is(value);
    Low32Is((value >> 32) & 0xFFFF_FFFF);
    JoinWords(value, low, high);
  }

  lemma AlignedRead64(mem: Store, addr: bv64)
    requires addr & 7 == 0
    ensures MemRead64(mem, addr) == (MemRead32(mem, addr) as bv64) | ((MemRead32(mem, Add64(addr, 4)) as bv64) << 32)
  {
  }

  /** The two words of a doubleword put back together give the doubleword. */
  lemma JoinWords(value: bv64, low: bv32, high: bv32)
    requires low == (value & 0xFFFF_FFFF) as bv32
    requires high == (((value >> 32) & 0xFFFF_FFFF) & 0xFFFF_FFFF) as bv32
    ensures (low as bv64) | ((high as bv64) << 32) == value
  {
  }

  /** A halfword at an even address is stored little-endian: its low byte at
      `addr` and its high byte at `addr + 1`. */
  lemma HalfIsLittleEndian(mem: Store, addr: bv64, value: bv16)
    requires addr & 1 == 0
    ensures MemRead8(StoreHalf(mem, addr, value), addr) == (value & 0xFF) as bv8
    ensures MemRead8(StoreHalf(mem, addr, value), Add64(addr, 1)) == (value >> 8) as bv8
  {
    var word := MemRead32(mem, WordOf(addr));
    Add64Is(addr, 1);
    EvenByteAddress(addr, Add64(addr, 1));
    InsertHalfBytes(word, (addr & 3) >> 1, value, addr & 3);
    InsertHalfBytes(word, (addr & 3) >> 1, value, Add64(addr, 1) & 3);
  }

  /** The byte after an even address is in the same word, one byte up. */
  lemma EvenByteAddress(addr: bv64, next: bv64)
    requires addr & 1 == 0 && next == addr + 1
    ensures WordOf(next) == WordOf(addr)
    ensures addr & 3 == ((addr & 3) >> 1) << 1 && next & 3 == (((addr & 3) >> 1) << 1) | 1
  {
    if addr & 3 == 0 {
      assert next & 3 == 1;
    } else {
      assert addr & 3 == 2;
      assert next & 3 == 3;
    }
  }

  /** `mem_write_8`: read the containing word, replace one byte, write it back. */
  method MemWrite8(m: Machine, addr: bv64, value: bv8)
    modifies m`mem
    ensures m.mem == StoreByte(old(m.mem), addr, value)
  {
    var a := WordOf(addr);
    var word := MemRead32(m.mem, a);
    word := InsertByte(word, addr & 3, value);
    MemWrite32(m, a, word);
  }

  /** `mem_write_16`: read the containing word, replace one half, write it back. */
  method MemWrite16(m: Machine, addr: bv64, value: bv16)
    modifies m`mem
    ensures m.mem == StoreHalf(old(m.mem), addr, value)
  {
    var a := WordOf(addr);
    var word := MemRead32(m.mem, a);
    word := InsertHalf(word, (addr & 3) >> 1, value);
    MemWrite32(m, a, word);
  }

  /** `mem_write_64`: two word writes, the second after the first. */
  method MemWrite64(m: Machine, addr: bv64, value: bv64)
    requires StoreDoubleDefined(addr)
    modifies m`mem
    ensures m.mem == StoreDouble(old(m.mem), addr, value)
  {
    var aligned := addr & !7;
    var offset := addr & 7;
    if offset != 0 {
      if offset <= 4 {
        MemWrite32(m, aligned, Low32(value));
        MemWrite32(m, Add64(aligned, 4), SplicedHigh(value, offset, MemRead32(m.mem, Add64(aligned, 4))));
      } else {
        MemWrite32(m, aligned, SplicedLow(value, offset, MemRead32(m.mem, aligned)));
        MemWrite32(m, Add64(aligned, 4), SpilledHigh(value, offset));
      }
    } else {
      MemWrite32(m, addr, Low32(value));
      MemWrite32(m, Add64(addr, 4), Low32((value >> 32) & 0xFFFF_FFFF));
    }
  }
}
