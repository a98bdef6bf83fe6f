/** What the handlers of `src/handlers.c` promise, stated as lemmas about the
    step functions of module Handlers. */
module HandlerProperties {
  import opened Bits
  import opened Shell
  import opened Decode
  import opened Handlers

  /** SUBS immediate always sets Z and N from the difference
      `calculate_mathOps` computes, but writes it only to a register other
      than 31. Nothing outside NEXT_STATE's registers and flags changes.
      `Decode.ImmediateOperand` gives the difference as `REGS[n] - imm` or
      `REGS[n] - (imm << 12)`. */
  lemma SubsImmSkipsRegister31(s: Sim, instr: bv32)
    ensures var f := DecodeIGroup(instr);
      var res := CalculateMathOps(s.current, f.n, 0, f.shift, f.imm12, true, true);
      var r := SubsImmStep(s, instr);
      && r.next.flagZ == (res == 0) && r.next.flagN == Negative(res)
      && r.next.regs == (if f.d != 31 then s.next.regs[f.d := res] else s.next.regs)
      && r.next.pc == s.next.pc && r.current == s.current && r.mem == s.mem
      && r.runBit == s.runBit && r.branchTaken == s.branchTaken
  {
  }

  /** SUBS register: the same guard on register 31. */
  lemma SubsRegSkipsRegister31(s: Sim, instr: bv32)
    ensures var f := DecodeRGroup(instr);
      var res := CalculateMathOps(s.current, f.n, f.m, f.opt, f.imm3, true, false);
      var r := SubsRegStep(s, instr);
      && r.next.flagZ == (res == 0) && r.next.flagN == Negative(res)
      && r.next.regs == (if f.d != 31 then s.next.regs[f.d := res] else s.next.regs)
      && r.next.pc == s.next.pc && r.current == s.current && r.mem == s.mem
      && r.runBit == s.runBit && r.branchTaken == s.branchTaken
  {
  }

  /** ADDS immediate writes the sum to register `d` whatever `d` is, 31
      included, and sets Z and N from it. */
  lemma AddsImmWritesAnyRegister(s: Sim, instr: bv32)
    ensures var f := DecodeIGroup(instr);
      var res := CalculateMathOps(s.current, f.n, 0, f.shift, f.imm12, false, true);
      var r := AddsImmStep(s, instr);
      && r.next.flagZ == (res == 0) && r.next.flagN == Negative(res)
      && r.next.regs == s.next.regs[f.d := res]
      && r.next.pc == s.next.pc && r.current == s.current && r.mem == s.mem
      && r.runBit == s.runBit && r.branchTaken == s.branchTaken
  {
  }

  /** ADDS register writes the sum to any register `d` and sets Z and N
      from it. */
  lemma AddsRegWritesAnyRegister(s: Sim, instr: bv32)
    ensures var f := DecodeRGroup(instr);
      var res := CalculateMathOps(s.current, f.n, f.m, f.opt, f.imm3, false, false);
      var r := AddsRegStep(s, instr);
      && r.next.flagZ == (res == 0) && r.next.flagN == Negative(res)
      && r.next.regs == s.next.regs[f.d := res]
      && r.next.pc == s.next.pc && r.current == s.current && r.mem == s.mem
      && r.runBit == s.runBit && r.branchTaken == s.branchTaken
  {
  }

  /** ADD immediate computes the same register file as ADDS immediate on
      the same word, and leaves the flags alone. */
  lemma AddImmIsAddsWithoutFlags(s: Sim, instr: bv32)
    ensures AddImmStep(s, instr).next.regs == AddsImmStep(s, instr).next.regs
    ensures AddImmStep(s, instr).next == s.next.(regs := AddImmStep(s, instr).next.regs)
  {
    var f := DecodeIGroup(instr);
    MathOpsUnfold(s.current, f.n, 0, f.shift, f.imm12, false, true);
  }

  /** ADD register computes the same register file as ADDS register on the
      same word, and leaves the flags alone. */
  lemma AddRegIsAddsWithoutFlags(s: Sim, instr: bv32)
    ensures AddRegStep(s, instr).next.regs == AddsRegStep(s, instr).next.regs
    ensures AddRegStep(s, instr).next == s.next.(regs := AddRegStep(s, instr).next.regs)
  {
    var f := DecodeRGroup(instr);
    MathOpsUnfold(s.current, f.n, f.m, f.opt, f.imm3, false, false);
    RegisterOperand(s.current, f.m, f.opt, f.imm3);
  }

  /** EOR's test for a zero amount only matters where ANDS is undefined:
      for LSL, LSR and ASR a shift by 0 is already the identity, so EOR and
      ANDS shift their second operand alike whenever ANDS is defined. */
  lemma EorGuardOnlyMattersForRor(op2: bv64, shift: bv32, imm6: bv32)
    requires shift < 4 && imm6 < 64
    ensures (shift == 3 ==> imm6 != 0) ==> EorOperand(op2, shift, imm6) == ShiftOperand(op2, shift, imm6)
    ensures imm6 == 0 ==> EorOperand(op2, shift, imm6) == op2
  {
    if imm6 == 0 && shift == 2 {
      assert Asr(op2, 0) == op2;
    }
  }

  /** ORR writes `REGS[n] | REGS[m]` to register `d` and leaves the flags
      as they were. */
  lemma OrrKeepsFlags(s: Sim, instr: bv32)
    ensures var f := DecodeRGroup(instr);
      var r := OrrStep(s, instr);
      && r.next.regs == s.next.regs[f.d := OrrResult(s.current, instr)]
      && r.next.flagZ == s.next.flagZ && r.next.flagN == s.next.flagN
    ensures var f := DecodeRGroup(instr);
      OrrResult(s.current, instr) == s.current.regs[f.n] | s.current.regs[f.m]
  {
  }

  /** The B offset is `sign_extend(imm26, 26) * 4` written out in bits: the
      low two bits are clear, bits 27:2 are `imm26`, and bits 63:28 copy
      bit 25 of the word. */
  lemma BranchOffsetBits(instr: bv32)
    ensures BranchOffset(instr) & 3 == 0
    ensures (BranchOffset(instr) >> 2) & 0x3FF_FFFF == (instr & 0x3FF_FFFF) as bv64
    ensures BranchOffset(instr) >> 28 == if instr & 0x200_0000 != 0 then 0xF_FFFF_FFFF else 0
  {
    var o := BranchOffset(instr);
    if instr & 0x200_0000 != 0 {
      NegativeBranchOffset(instr);
      NegativeOffsetBits(instr, o);
    } else {
      PositiveBranchOffset(instr);
      PositiveOffsetBits(instr, o);
    }
  }

  lemma NegativeBranchOffset(instr: bv32)
    requires instr & 0x200_0000 != 0
    ensures BranchOffset(instr) == !((!(0xFFFF_FFFF_0000_0000 | ((instr & 0x3FF_FFFF) << 6) as bv64)) >> 4)
  {
    var x := (instr & 0x3FF_FFFF) << 6;
    WidenSigned32Bits(x);
    assert Negative(WidenSigned32(x));
  }

  lemma PositiveBranchOffset(instr: bv32)
    requires instr & 0x200_0000 == 0
    ensures BranchOffset(instr) == (((instr & 0x3FF_FFFF) << 6) as bv64) >> 4
  {
    var x := (instr & 0x3FF_FFFF) << 6;
    WidenSigned32Bits(x);
    assert !Negative(WidenSigned32(x));
  }

  lemma NegativeOffsetBits(instr: bv32, o: bv64)
    requires instr & 0x200_0000 != 0
    requires o == !((!(0xFFFF_FFFF_0000_0000 | ((instr & 0x3FF_FFFF) << 6) as bv64)) >> 4)
    ensures o & 3 == 0 && (o >> 2) & 0x3FF_FFFF == (instr & 0x3FF_FFFF) as bv64 && o >> 28 == 0xF_FFFF_FFFF
  {
  }

  lemma PositiveOffsetBits(instr: bv32, o: bv64)
    requires instr & 0x200_0000 == 0
    requires o == (((instr & 0x3FF_FFFF) << 6) as bv64) >> 4
    ensures o & 3 == 0 && (o >> 2) & 0x3FF_FFFF == (instr & 0x3FF_FFFF) as bv64 && o >> 28 == 0
  {
  }

  /** `NEXT_STATE.PC += offset - 4` is undone by a later `+ 4`: the caller
      that adds 4 lands on `PC + offset`. B touches nothing but NEXT_STATE.PC,
      and does not set `branch_taken`. */
  lemma BLandsOnOffset(s: Sim, instr: bv32)
    ensures Add64(BStep(s, instr).next.pc, 4) == Add64(s.next.pc, BranchOffset(instr))
    ensures BStep(s, instr) == s.(next := s.next.(pc := BStep(s, instr).next.pc))
  {
    AddSubAdd(s.next.pc, BranchOffset(instr), 4);
  }

  /** BR sets NEXT_STATE.PC four short of `REGS[n]`, so that a later `+ 4`
      lands on the register's value; `branch_taken` is not set. */
  lemma BrLandsOnRegister(s: Sim, instr: bv32)
    ensures Add64(BrStep(s, instr).next.pc, 4) == s.current.regs[(instr >> 5) & 0x1F]
    ensures BrStep(s, instr) == s.(next := s.next.(pc := BrStep(s, instr).next.pc))
  {
    AddUndoesSub(s.current.regs[(instr >> 5) & 0x1F], 4);
  }

  /** One level of `CondBranchOffset`, with the `imm19` field named `v`. */
  lemma CondBranchOffsetIs(instr: bv32, v: bv64)
    requires v == ((instr >> 5) & 0x7_FFFF) as bv64
    ensures CondBranchOffset(instr) == WidenSigned32(Low32(SignExtend(v, 19))) << 2
  {
  }

  /** `(int64_t)(int32_t)e == e` for an `e` whose bits 63:18 are all set. */
  lemma NegativeWordRoundTrip(e: bv64)
    requires e >> 18 == 0x3FFF_FFFF_FFFF
    ensures WidenSigned32(Low32(e)) == e
  {
    Low32Is(e);
    SignFillsWord(e, Low32(e));
    WidenSigned32Bits(Low32(e));
    FilledWordIsValue(e, Low32(e));
  }

  /** `(int64_t)(int32_t)e == e` for an `e` below 2^18. */
  lemma PositiveWordRoundTrip(e: bv64)
    requires e >> 18 == 0
    ensures WidenSigned32(Low32(e)) == e
  {
    Low32Is(e);
    ClearSignKeepsWord(e, Low32(e));
    WidenSigned32Bits(Low32(e));
    ClearWordIsValue(e, Low32(e));
  }

  lemma SignFillsWord(e: bv64, w: bv32)
    requires e >> 18 == 0x3FFF_FFFF_FFFF && w == (e & 0xFFFF_FFFF) as bv32
    ensures w & 0x8000_0000 != 0
  {
  }

  lemma ClearSignKeepsWord(e: bv64, w: bv32)
    requires e >> 18 == 0 && w == (e & 0xFFFF_FFFF) as bv32
    ensures w & 0x8000_0000 == 0
  {
  }

  lemma FilledWordIsValue(e: bv64, w: bv32)
    requires e >> 18 == 0x3FFF_FFFF_FFFF && w == (e & 0xFFFF_FFFF) as bv32
    ensures 0xFFFF_FFFF_0000_0000 | w as bv64 == e
  {
  }

  lemma ClearWordIsValue(e: bv64, w: bv32)
    requires e >> 18 == 0 && w == (e & 0xFFFF_FFFF) as bv32
    ensures w as bv64 == e
  {
  }

  /** The B.cond offset in bits: the low two bits are clear, bits 20:2 are
      `imm19`, and bits 63:21 copy bit 23 of the word (the sign of `imm19`).
      So the `int32_t` round trip loses nothing: the offset is
      `sign_extend(imm19, 19) << 2` in 64 bits. */
  lemma CondBranchOffsetBits(instr: bv32)
    ensures CondBranchOffset(instr) & 3 == 0
    ensures (CondBranchOffset(instr) >> 2) & 0x7_FFFF == ((instr >> 5) & 0x7_FFFF) as bv64
    ensures CondBranchOffset(instr) >> 21 == if instr & 0x80_0000 != 0 then 0x7FF_FFFF_FFFF else 0
  {
    var v := ((instr >> 5) & 0x7_FFFF) as bv64;
    if v < 0x4_0000 {
      PositiveCondOffsetBits(instr, v);
    } else {
      NegativeCondOffsetBits(instr, v);
    }
  }

  lemma PositiveCondOffsetBits(instr: bv32, v: bv64)
    requires v == ((instr >> 5) & 0x7_FFFF) as bv64
    requires v < 0x4_0000
    ensures CondBranchOffset(instr) & 3 == 0
    ensures (CondBranchOffset(instr) >> 2) & 0x7_FFFF == v
    ensures instr & 0x80_0000 == 0 && CondBranchOffset(instr) >> 21 == 0
  {
    PositiveFieldRoundTrip(v);
    PositiveCondOffset(instr, v, WidenSigned32(Low32(SignExtend(v, 19))));
    PositiveShiftedField(instr, v, CondBranchOffset(instr));
  }

  lemma NegativeCondOffsetBits(instr: bv32, v: bv64)
    requires v == ((instr >> 5) & 0x7_FFFF) as bv64
    requires v >= 0x4_0000
    ensures CondBranchOffset(instr) & 3 == 0
    ensures (CondBranchOffset(instr) >> 2) & 0x7_FFFF == v
    ensures instr & 0x80_0000 != 0 && CondBranchOffset(instr) >> 21 == 0x7FF_FFFF_FFFF
  {
    var e := SignExtend(v, 19);
    SignExtend19Negative(v);
    NegativeCondOffsetFields(instr, v, e);
  }

  /** A non-negative `imm19` gives the offset `imm19 << 2`: `w` is the
      value of `(int64_t)(int32_t)sign_extend(imm19, 19)`. */
  lemma PositiveCondOffset(instr: bv32, v: bv64, w: bv64)
    requires v == ((instr >> 5) & 0x7_FFFF) as bv64
    requires w == WidenSigned32(Low32(SignExtend(v, 19))) && w == v
    ensures CondBranchOffset(instr) == v << 2
  {
    CondBranchOffsetIs(instr, v);
  }

  /** A negative `imm19` gives `sign_extend(imm19, 19) << 2`. */
  lemma NegativeCondOffset(instr: bv32, v: bv64, e: bv64, w: bv64)
    requires v == ((instr >> 5) & 0x7_FFFF) as bv64
    requires w == WidenSigned32(Low32(SignExtend(v, 19))) && w == e
    ensures CondBranchOffset(instr) == e << 2
  {
    CondBranchOffsetIs(instr, v);
  }

  lemma PositiveFieldRoundTrip(v: bv64)
    requires v < 0x4_0000
    ensures WidenSigned32(Low32(SignExtend(v, 19))) == v
  {
    SignExtend19NonNegative(v);
    PositiveWordRoundTrip(v);
  }

  lemma NegativeFieldRoundTrip(v: bv64, e: bv64)
    requires SignExtend(v, 19) == e
    requires e >> 18 == 0x3FFF_FFFF_FFFF
    ensures WidenSigned32(Low32(SignExtend(v, 19))) == e
  {
    NegativeWordRoundTrip(e);
  }

  lemma NegativeCondOffsetFields(instr: bv32, v: bv64, e: bv64)
    requires v == ((instr >> 5) & 0x7_FFFF) as bv64 && 0x4_0000 <= v
    requires SignExtend(v, 19) == e
    requires e & 0x7_FFFF == v && e >> 18 == 0x3FFF_FFFF_FFFF
    ensures CondBranchOffset(instr) & 3 == 0
    ensures (CondBranchOffset(instr) >> 2) & 0x7_FFFF == v
    ensures instr & 0x80_0000 != 0 && CondBranchOffset(instr) >> 21 == 0x7FF_FFFF_FFFF
  {
    NegativeFieldRoundTrip(v, e);
    NegativeCondOffset(instr, v, e, WidenSigned32(Low32(SignExtend(v, 19))));
    NegativeShiftedField(instr, v, e, CondBranchOffset(instr));
  }

  lemma PositiveShiftedField(instr: bv32, v: bv64, o: bv64)
    requires v == ((instr >> 5) & 0x7_FFFF) as bv64 && v < 0x4_0000
    requires o == v << 2
    ensures o & 3 == 0 && (o >> 2) & 0x7_FFFF == v && instr & 0x80_0000 == 0 && o >> 21 == 0
  {
  }

  lemma NegativeShiftedField(instr: bv32, v: bv64, e: bv64, o: bv64)
    requires v == ((instr >> 5) & 0x7_FFFF) as bv64 && 0x4_0000 <= v
    requires e & 0x7_FFFF == v && e >> 18 == 0x3FFF_FFFF_FFFF
    requires o == e << 2
    ensures o & 3 == 0 && (o >> 2) & 0x7_FFFF == v && instr & 0x80_0000 != 0 && o >> 21 == 0x7FF_FFFF_FFFF
  {
  }

  /** The condition test of the Arm architecture's condition-code table
      (section C1.2.4 of the Arm Architecture Reference Manual): bits 3:1
      choose the test and bit 0 negates it, except for code 0b1111. */
  predicate ArmConditionHolds(cond: bv32, n: bool, z: bool, c: bool, v: bool)
    requires cond < 16
  {
    var op := cond >> 1;
    var base :=
      if op == 0 then z
      else if op == 1 then c
      else if op == 2 then n
      else if op == 3 then v
      else if op == 4 then c && !z
      else if op == 5 then n == v
      else if op == 6 then !z && n == v
      else true;
    if cond & 1 == 1 && cond != 0xF then !base else base
  }

  /** The six codes B.cond handles are EQ, NE, GE, LT, GT and LE of the
      Arm table read with the overflow flag clear, whatever the carry. */
  lemma BCondMatchesArm(cond: bv32, z: bool, n: bool, c: bool)
    requires cond == 0x0 || cond == 0x1 || cond == 0xA || cond == 0xB || cond == 0xC || cond == 0xD
    ensures BCondHolds(cond, z, n) == ArmConditionHolds(cond, n, z, c, false)
  {
  }

  /** With the latch clear on entry (the driver clears it), B.cond branches
      exactly when its condition holds, to `CURRENT_STATE.PC + offset`;
      otherwise, and for every condition code outside the six, nothing
      changes. */
  lemma BCondBranchesIff(s: Sim, instr: bv32)
    requires !s.branchTaken
    ensures var r := BCondStep(s, instr);
      && (r.branchTaken <==> BCondHolds(instr & 0xF, s.current.flagZ, s.current.flagN))
      && (r.branchTaken ==> r == s.(branchTaken := true,
                                    next := s.next.(pc := Add64(s.current.pc, CondBranchOffset(instr)))))
      && (!r.branchTaken ==> r == s)
    ensures (var c := instr & 0xF; !(c == 0x0 || c == 0x1 || c == 0xA || c == 0xB || c == 0xC || c == 0xD))
      ==> BCondStep(s, instr) == s
  {
  }

  /** CBZ branches exactly when `REGS[t]` is zero and CBNZ exactly when it is
      not; an untaken branch changes nothing, NEXT_STATE.PC and the latch
      included. */
  lemma CompareBranchesIff(s: Sim, instr: bv32)
    ensures var t := instr & 0x1F;
      var taken := s.(branchTaken := true, next := s.next.(pc := CompareBranchTarget(s.current, instr)));
      && CbzStep(s, instr) == (if s.current.regs[t] == 0 then taken else s)
      && CbnzStep(s, instr) == (if s.current.regs[t] != 0 then taken else s)
  {
  }

  /** Because the offset passes through an `uint32_t`, the CBZ/CBNZ target
      always lies within 4 GiB above `CURRENT_STATE.PC`: a branch backwards
      is never taken backwards. */
  lemma CompareBranchNeverBackward(cur: CpuState, instr: bv32)
    ensures Sub64(CompareBranchTarget(cur, instr), cur.pc) < 0x1_0000_0000
  {
    SubUndoesAddLeft(cur.pc, DecodeConditionalBranch(instr).offset as bv64);
  }

  /** CBZ X0 with `imm19 = 0x7FFFF` (a branch to the previous instruction):
      the target is `PC + 0xFFFFFFFC`, not `PC - 4`. */
  lemma CompareBranchBackOne(cur: CpuState)
    ensures CompareBranchTarget(cur, 0xB4FF_FFE0) == Add64(cur.pc, 0xFFFF_FFFC)
    ensures CompareBranchTarget(cur, 0xB4FF_FFE0) != Sub64(cur.pc, 4)
  {
    var f := DecodeConditionalBranch(0xB4FF_FFE0);
    assert f.offset == 0xFFFF_FFFC;
    Add64Is(cur.pc, 0xFFFF_FFFC);
    Sub64Is(cur.pc, 4);
  }

  // ---------------------------------------------------------------------
  // Loads and stores.
  // ---------------------------------------------------------------------

  /** `sign_extend(imm9, 64)` followed by the `int32_t` round trip leaves
      the 9-bit field as it is: the offset is never negative. */
  lemma UnsignedMemOffset(v: bv64, w: bv64)
    requires v < 0x200
    requires w == WidenSigned32(Low32(SignExtend(v, 64)))
    ensures w == v
  {
    SignExtend64Identity(v);
    SmallFieldFits(v);
    PositiveWordRoundTrip(v);
  }

  lemma SmallFieldFits(v: bv64)
    requires v < 0x200
    ensures v >> 18 == 0
  {
  }

  /** The load and store address is `REGS[n] + imm9` with `imm9` read as an
      unsigned 9-bit number: an offset of 0x1FF adds 511 rather than
      subtracting 1. */
  lemma MemAddressUnsigned(cur: CpuState, instr: bv32, n: bv32, imm9: bv64)
    requires n == (instr >> 5) & 0x1F && imm9 == ((instr >> 12) & 0x1FF) as bv64
    ensures MemAddress(cur, instr) == Add64(cur.regs[n], imm9)
  {
    var f := DecodeMemAccess(instr);
    UnsignedMemOffset(imm9, WidenSigned32(Low32(SignExtend(f.imm9 as bv64, 64))));
  }

  /** STURB then LDURB through the same base register and offset loads
      `v`, the low byte of the stored register, zero-extended. */
  lemma StoreThenLoadByte(s: Sim, store: bv32, load: bv32, v: bv8)
    requires DecodeMemAccess(store).n == DecodeMemAccess(load).n
    requires DecodeMemAccess(store).imm9 == DecodeMemAccess(load).imm9
    requires v == Low8(s.current.regs[DecodeMemAccess(store).t])
    ensures LdurbStep(SturbStep(s, store), load).next.regs[DecodeMemAccess(load).t] == v as bv64
  {
    SameMemAddress(s.current, store, load);
    LoadAfterStoreByte(s.mem, MemAddress(s.current, store), v);
  }

  /** STURH then LDURH through the same base register and offset loads
      `v`, the low halfword of the stored register, zero-extended. */
  lemma StoreThenLoadHalf(s: Sim, store: bv32, load: bv32, v: bv16)
    requires DecodeMemAccess(store).n == DecodeMemAccess(load).n
    requires DecodeMemAccess(store).imm9 == DecodeMemAccess(load).imm9
    requires v == Low16(s.current.regs[DecodeMemAccess(store).t])
    ensures LdurhStep(SturhStep(s, store), load).next.regs[DecodeMemAccess(load).t] == v as bv64
  {
    SameMemAddress(s.current, store, load);
    LoadAfterStoreHalf(s.mem, MemAddress(s.current, store), v);
  }

  lemma LoadAfterStoreHalf(mem: Store, addr: bv64, value: bv16)
    ensures LoadHalf(StoreHalf(mem, addr, value), addr) == value as bv64
  {
    StoreHalfReadsBack(mem, addr, value);
  }

  lemma LoadAfterStoreByte(mem: Store, addr: bv64, value: bv8)
    ensures LoadByte(StoreByte(mem, addr, value), addr) == value as bv64
  {
    StoreByteReadsBack(mem, addr, value);
  }

  /** STUR then LDUR through the same base register and offset, at an
      8-aligned address, loads `v`, the stored register, whole. */
  lemma StoreThenLoadDouble(s: Sim, store: bv32, load: bv32, v: bv64)
    requires DecodeMemAccess(store).n == DecodeMemAccess(load).n
    requires DecodeMemAccess(store).imm9 == DecodeMemAccess(load).imm9
    requires MemAddress(s.current, store) & 7 == 0
    requires v == s.current.regs[DecodeMemAccess(store).t]
    ensures LdurStep(SturStep(s, store), load).next.regs[DecodeMemAccess(load).t] == v
  {
    SameMemAddress(s.current, store, load);
    DoubleRoundTrip(s.mem, MemAddress(s.current, store), v);
  }

  /** The address depends only on the base register and the offset field. */
  lemma SameMemAddress(cur: CpuState, a: bv32, b: bv32)
    requires DecodeMemAccess(a).n == DecodeMemAccess(b).n
    requires DecodeMemAccess(a).imm9 == DecodeMemAccess(b).imm9
    ensures MemAddress(cur, a) == MemAddress(cur, b)
  {
  }

  // ---------------------------------------------------------------------
  // MOVZ and the shift.
  // ---------------------------------------------------------------------

  /** MOVZ ignores `hw`: the word with bits 22:21 cleared does the same, and
      register `d` receives `imm16` unshifted. */
  lemma MovzIgnoresHw(s: Sim, instr: bv32)
    ensures MovzStep(s, instr) == MovzStep(s, instr & !0x60_0000)
    ensures MovzStep(s, instr).next.regs[instr & 0x1F] == ((instr >> 5) & 0xFFFF) as bv64
    ensures MovzStep(s, instr).next.regs[instr & 0x1F] < 0x1_0000
  {
    HwBitsOutsideFields(instr);
  }

  lemma HwBitsOutsideFields(instr: bv32)
    ensures (instr & !0x60_0000) & 0x1F == instr & 0x1F
    ensures ((instr & !0x60_0000) >> 5) & 0xFFFF == (instr >> 5) & 0xFFFF
  {
  }

  /** The shift handler shifts right only for an amount of 63, which leaves
      just the old sign bit of `REGS[n]`. */
  lemma ShiftRightBy63(cur: CpuState, instr: bv32)
    requires (instr >> 16) & 0x3F == 0x3F
    ensures ShiftResult(cur, instr) == if Negative(cur.regs[(instr >> 5) & 0x1F]) then 1 else 0
  {
    ShiftResultRight(cur, instr);
    TopBit(cur.regs[(instr >> 5) & 0x1F]);
  }

  lemma ShiftResultRight(cur: CpuState, instr: bv32)
    requires (instr >> 16) & 0x3F == 0x3F
    ensures ShiftResult(cur, instr) == cur.regs[(instr >> 5) & 0x1F] >> 63
  {
  }

  lemma TopBit(x: bv64)
    ensures x >> 63 == if Negative(x) then 1 else 0
  {
  }

  // ---------------------------------------------------------------------
  // What every handler leaves alone.
  // ---------------------------------------------------------------------

  /** The handlers that write memory. */
  predicate WritesMemory(h: Handler) {
    h == Stur || h == Sturb || h == Sturh
  }

  /** The handlers that can set `branch_taken`. */
  predicate SetsLatch(h: Handler) {
    h == BCond || h == Cbz || h == Cbnz
  }

  /** What a call of handler `h` may change in the globals `s` to give `r`:
      CURRENT_STATE never; the run flag only for HLT, which clears it; memory
      only for the stores; `branch_taken` only for B.cond, CBZ and CBNZ, and
      never from set to clear; NEXT_STATE not at all for HLT and the stores. */
  predicate WithinFrame(h: Handler, s: Sim, r: Sim) {
    && r.current == s.current
    && r.runBit == (s.runBit && h != Hlt)
    && (!WritesMemory(h) ==> r.mem == s.mem)
    && (!SetsLatch(h) ==> r.branchTaken == s.branchTaken)
    && (s.branchTaken ==> r.branchTaken)
    && (h == Hlt || WritesMemory(h) ==> r.next == s.next)
  }

  /** Every handler stays within its frame. */
  lemma ExecuteFrame(h: Handler, s: Sim, instr: bv32)
    requires Defined(h, s, instr)
    ensures WithinFrame(h, s, Execute(h, s, instr))
  {
    AddFrames(s, instr);
    SubtractFrames(s, instr);
    LogicFrames(s, instr);
    MoveFrames(s, instr);
    MultiplyFrames(s, instr);
    LoadFrames(s, instr);
    StoreFrames(s, instr);
    JumpFrames(s, instr);
    ConditionalFrames(s, instr);
  }

  lemma AddFrames(s: Sim, instr: bv32)
    ensures WithinFrame(AddsImm, s, AddsImmStep(s, instr)) && WithinFrame(AddsReg, s, AddsRegStep(s, instr))
    ensures WithinFrame(AddImm, s, AddImmStep(s, instr)) && WithinFrame(AddReg, s, AddRegStep(s, instr))
  {
  }

  lemma SubtractFrames(s: Sim, instr: bv32)
    ensures WithinFrame(SubsImm, s, SubsImmStep(s, instr)) && WithinFrame(SubsReg, s, SubsRegStep(s, instr))
  {
  }

  lemma LogicFrames(s: Sim, instr: bv32)
    ensures AndsDefined(instr) ==> WithinFrame(Ands, s, AndsStep(s, instr))
    ensures WithinFrame(Eor, s, EorStep(s, instr)) && WithinFrame(Orr, s, OrrStep(s, instr))
  {
  }

  lemma MoveFrames(s: Sim, instr: bv32)
    ensures WithinFrame(Movz, s, MovzStep(s, instr)) && WithinFrame(Shift, s, ShiftStep(s, instr))
  {
  }

  lemma MultiplyFrames(s: Sim, instr: bv32)
    ensures WithinFrame(Mul, s, MulStep(s, instr))
  {
  }

  lemma LoadFrames(s: Sim, instr: bv32)
    ensures WithinFrame(Ldur, s, LdurStep(s, instr)) && WithinFrame(Ldurb, s, LdurbStep(s, instr))
    ensures WithinFrame(Ldurh, s, LdurhStep(s, instr))
  {
  }

  lemma StoreFrames(s: Sim, instr: bv32)
    ensures WithinFrame(Sturb, s, SturbStep(s, instr)) && WithinFrame(Sturh, s, SturhStep(s, instr))
    ensures StoreDoubleDefined(MemAddress(s.current, instr)) ==> WithinFrame(Stur, s, SturStep(s, instr))
  {
  }

  lemma JumpFrames(s: Sim, instr: bv32)
    ensures WithinFrame(Hlt, s, HltStep(s, instr)) && WithinFrame(B, s, BStep(s, instr))
    ensures WithinFrame(Br, s, BrStep(s, instr))
  {
  }

  lemma ConditionalFrames(s: Sim, instr: bv32)
    ensures WithinFrame(BCond, s, BCondStep(s, instr))
    ensures WithinFrame(Cbz, s, CbzStep(s, instr)) && WithinFrame(Cbnz, s, CbnzStep(s, instr))
  {
  }
}
