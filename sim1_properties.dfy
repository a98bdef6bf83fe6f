/** What the handlers of src/sim1.c promise, stated as lemmas about the step
    functions of module Sim1Handlers, and how they compare with the modular
    engine of src/decode.c and src/handlers.c. */
module Sim1Properties {
  import opened Bits
  import opened Shell
  import opened Decode
  import Handlers
  import HandlerProperties
  import opened Sim1Handlers

  // ---------------------------------------------------------------------
  // Frames: what a handler that is not a branch leaves alone.
  // ---------------------------------------------------------------------

  /** The handlers that move the PC themselves. */
  predicate IsBranch(h: Handler) {
    h == B || h == Br || h == BCond || h == Cbz || h == Cbnz
  }

  /** The handlers that write memory. */
  predicate WritesMemory(h: Handler) {
    h == Stur || h == Sturb || h == Sturh
  }

  /** What a handler that is not a branch may change in `s` to give `r`:
      CURRENT_STATE and the latch never; NEXT_STATE.PC moves on by four
      when the latch is clear and stays otherwise; the run flag only for
      HLT, which clears it; memory only for the stores; NEXT_STATE's
      registers and flags not at all for HLT and the stores. */
  predicate AdvancedWithin(h: Handler, s: Sim, r: Sim) {
    && r.current == s.current
    && r.branchTaken == s.branchTaken
    && r.next.pc == (if s.branchTaken then s.next.pc else Add64(s.next.pc, 4))
    && r.runBit == (s.runBit && h != Hlt)
    && (!WritesMemory(h) ==> r.mem == s.mem)
    && (h == Hlt || WritesMemory(h) ==> r.next.(pc := s.next.pc) == s.next)
  }

  /** Every handler that is not a branch ends with
      `if (!branch_taken) NEXT_STATE.PC += 4` and stays within its frame. */
  lemma NonBranchFrame(h: Handler, s: Sim, instr: bv32, check: bv32 -> bool)
    requires Defined(h, instr) && !IsBranch(h)
    ensures AdvancedWithin(h, s, Execute(h, s, instr, check))
  {
    match h
    case AddsImm => AddWithFlagsFrame(h, s, instr, check);
    case AddsReg => AddWithFlagsFrame(h, s, instr, check);
    case AddImm => AddFrame(h, s, instr, check);
    case AddReg => AddFrame(h, s, instr, check);
    case Mul => MoveFrame(h, s, instr, check);
    case SubsImm => SubtractFrame(h, s, instr, check);
    case SubsReg => SubtractFrame(h, s, instr, check);
    case Ands => LogicFrame(h, s, instr, check);
    case Eor => LogicFrame(h, s, instr, check);
    case Orr => LogicFrame(h, s, instr, check);
    case Shifts => LogicFrame(h, s, instr, check);
    case Movz => MoveFrame(h, s, instr, check);
    case Hlt => MoveFrame(h, s, instr, check);
    case Ldur => LoadFrame(h, s, instr, check);
    case Ldurb => LoadFrame(h, s, instr, check);
    case Ldurh => LoadFrame(h, s, instr, check);
    case Stur => StoreFrame(h, s, instr, check);
    case Sturb => StoreFrame(h, s, instr, check);
    case Sturh => StoreFrame(h, s, instr, check);
  }

  lemma AddWithFlagsFrame(h: Handler, s: Sim, instr: bv32, check: bv32 -> bool)
    requires h == AddsImm || h == AddsReg
    ensures AdvancedWithin(h, s, Execute(h, s, instr, check))
  {
    match h
    case AddsImm => FlagWriteAdvances(h, s, DecodeIFormat(instr).rd, AddsImmResult(s.current, instr));
    case AddsReg => FlagWriteAdvances(h, s, DecodeRFormat(instr).rd, AddsRegResult(s.current, instr));
  }

  lemma AddFrame(h: Handler, s: Sim, instr: bv32, check: bv32 -> bool)
    requires h == AddImm || h == AddReg
    ensures AdvancedWithin(h, s, Execute(h, s, instr, check))
  {
    match h
    case AddImm => AddImmFrame(s, instr);
    case AddReg => AddRegFrame(s, instr);
  }

  lemma AddImmFrame(s: Sim, instr: bv32)
    ensures AdvancedWithin(AddImm, s, AddImmStep(s, instr))
  {
    RegWriteAdvances(AddImm, s, instr & 0x1F, Handlers.AddImmResult(s.current, instr));
  }

  lemma AddRegFrame(s: Sim, instr: bv32)
    ensures AdvancedWithin(AddReg, s, AddRegStep(s, instr))
  {
    RegWriteAdvances(AddReg, s, instr & 0x1F, Handlers.AddRegResult(s.current, instr));
  }

  lemma SubtractFrame(h: Handler, s: Sim, instr: bv32, check: bv32 -> bool)
    requires h == SubsImm || h == SubsReg
    ensures AdvancedWithin(h, s, Execute(h, s, instr, check))
  {
    var d := instr & 0x1F;
    match h
    case SubsImm =>
      FlagWriteAdvances(h, s, d, SubsImmResult(s.current, instr));
      FlagsAdvance(h, s, SubsImmResult(s.current, instr));
    case SubsReg =>
      FlagWriteAdvances(h, s, d, SubsRegResult(s.current, instr));
      FlagsAdvance(h, s, SubsRegResult(s.current, instr));
  }

  lemma LogicFrame(h: Handler, s: Sim, instr: bv32, check: bv32 -> bool)
    requires Defined(h, instr) && (h == Ands || h == Eor || h == Orr || h == Shifts)
    ensures AdvancedWithin(h, s, Execute(h, s, instr, check))
  {
    var d := instr & 0x1F;
    match h
    case Ands => FlagWriteAdvances(h, s, d, Handlers.AndsResult(s.current, instr));
    case Eor => FlagWriteAdvances(h, s, d, Handlers.EorResult(s.current, instr));
    case Orr => RegWriteAdvances(h, s, d, Handlers.OrrResult(s.current, instr));
    case Shifts => RegWriteAdvances(h, s, d, ShiftsResult(s.current, instr));
  }

  lemma MoveFrame(h: Handler, s: Sim, instr: bv32, check: bv32 -> bool)
    requires h == Movz || h == Hlt || h == Mul
    ensures AdvancedWithin(h, s, Execute(h, s, instr, check))
  {
    match h
    case Mul => RegWriteAdvances(h, s, instr & 0x1F, Handlers.MulResult(s.current, instr));
    case Movz => RegWriteAdvances(h, s, DecodeIwFormat(instr).rd, DecodeIwFormat(instr).imm);
    case Hlt => HltAdvances(s);
  }

  lemma LoadFrame(h: Handler, s: Sim, instr: bv32, check: bv32 -> bool)
    requires h == Ldur || h == Ldurb || h == Ldurh
    ensures AdvancedWithin(h, s, Execute(h, s, instr, check))
  {
    match h
    case Ldur =>
      assert Execute(h, s, instr, check) == LdurStep(s, instr);
      LdurFrame(s, instr);
    case Ldurb =>
      assert Execute(h, s, instr, check) == LdurbStep(s, instr);
      LdurbFrame(s, instr);
    case Ldurh =>
      assert Execute(h, s, instr, check) == LdurhStep(s, instr);
      LdurhFrame(s, instr);
  }

  lemma LdurFrame(s: Sim, instr: bv32)
    ensures AdvancedWithin(Ldur, s, LdurStep(s, instr))
  {
    RegWriteAdvances(Ldur, s, DecodeDFormat(instr).rt, PairRead64(s.mem, DoubleAddress(s.current, instr)));
  }

  lemma LdurbFrame(s: Sim, instr: bv32)
    ensures AdvancedWithin(Ldurb, s, LdurbStep(s, instr))
  {
    RegWriteAdvances(Ldurb, s, instr & 0x1F, Handlers.LoadByte(s.mem, Handlers.MemAddress(s.current, instr)));
  }

  lemma LdurhFrame(s: Sim, instr: bv32)
    ensures AdvancedWithin(Ldurh, s, LdurhStep(s, instr))
  {
    RegWriteAdvances(Ldurh, s, instr & 0x1F, Handlers.LoadHalf(s.mem, Handlers.MemAddress(s.current, instr)));
  }

  lemma StoreFrame(h: Handler, s: Sim, instr: bv32, check: bv32 -> bool)
    requires WritesMemory(h)
    ensures AdvancedWithin(h, s, Execute(h, s, instr, check))
  {
    match h
    case Stur => SturFrame(s, instr);
    case Sturb => SturbFrame(s, instr);
    case Sturh => SturhFrame(s, instr);
  }

  lemma SturFrame(s: Sim, instr: bv32)
    ensures AdvancedWithin(Stur, s, SturStep(s, instr))
  {
    MemWriteAdvances(Stur, s, PairStore64(s.mem, DoubleAddress(s.current, instr), s.current.regs[DecodeDFormat(instr).rt]));
  }

  lemma SturbFrame(s: Sim, instr: bv32)
    ensures AdvancedWithin(Sturb, s, SturbStep(s, instr))
  {
    MemWriteAdvances(Sturb, s, StoreByte(s.mem, NarrowStoreAddress(s.current, instr), Low8(s.current.regs[instr & 0x1F])));
  }

  lemma SturhFrame(s: Sim, instr: bv32)
    ensures AdvancedWithin(Sturh, s, SturhStep(s, instr))
  {
    MemWriteAdvances(Sturh, s, StoreHalf(s.mem, NarrowStoreAddress(s.current, instr), Low16(s.current.regs[instr & 0x1F])));
  }

  /** A register write followed by the advance. */
  lemma RegWriteAdvances(h: Handler, s: Sim, d: bv32, v: bv64)
    requires d < 32 && h != Hlt && !WritesMemory(h)
    ensures AdvancedWithin(h, s, Advance(s.(next := Handlers.SetReg(s.next, d, v))))
  {
  }

  /** A register write with the flags, followed by the advance. */
  lemma FlagWriteAdvances(h: Handler, s: Sim, d: bv32, v: bv64)
    requires d < 32 && h != Hlt && !WritesMemory(h)
    ensures AdvancedWithin(h, s, Advance(s.(next := SetRegWithFlags(s.next, d, v))))
  {
  }

  /** The flags alone, followed by the advance. */
  lemma FlagsAdvance(h: Handler, s: Sim, v: bv64)
    requires h != Hlt && !WritesMemory(h)
    ensures AdvancedWithin(h, s, Advance(s.(next := WithFlags(s.next, v))))
  {
  }

  /** A memory write followed by the advance. */
  lemma MemWriteAdvances(h: Handler, s: Sim, mem: Store)
    requires WritesMemory(h)
    ensures AdvancedWithin(h, s, Advance(s.(mem := mem)))
  {
  }

  /** HLT clears the run flag and advances. */
  lemma HltAdvances(s: Sim)
    ensures AdvancedWithin(Hlt, s, Advance(s.(runBit := false)))
  {
  }

  // ---------------------------------------------------------------------
  // Arithmetic: the same values as `calculate_mathOps`.
  // ---------------------------------------------------------------------

  /** ADDS immediate of src/sim1.c adds what `calculate_mathOps` of
      src/decode.c adds for the same word. */
  lemma AddsImmAgrees(cur: CpuState, instr: bv32)
    ensures var f := DecodeIGroup(instr);
      AddsImmResult(cur, instr) == CalculateMathOps(cur, f.n, 0, f.shift, f.imm12, false, true)
  {
    var f := DecodeIGroup(instr);
    MathOpsUnfold(cur, f.n, 0, f.shift, f.imm12, false, true);
    ImmediateOperand(cur, f.shift, f.imm12);
  }

  /** ADDS register agrees with `calculate_mathOps` in its register form. */
  lemma AddsRegAgrees(cur: CpuState, instr: bv32)
    ensures var f := DecodeRGroup(instr);
      AddsRegResult(cur, instr) == CalculateMathOps(cur, f.n, f.m, f.opt, f.imm3, false, false)
  {
    var f := DecodeRGroup(instr);
    MathOpsUnfold(cur, f.n, f.m, f.opt, f.imm3, false, false);
    RegisterOperand(cur, f.m, f.opt, f.imm3);
  }

  /** SUBS immediate agrees with `calculate_mathOps`. */
  lemma SubsImmAgrees(cur: CpuState, instr: bv32)
    ensures var f := DecodeIGroup(instr);
      SubsImmResult(cur, instr) == CalculateMathOps(cur, f.n, 0, f.shift, f.imm12, true, true)
  {
    var f := DecodeIGroup(instr);
    MathOpsUnfold(cur, f.n, 0, f.shift, f.imm12, true, true);
    ImmediateOperand(cur, f.shift, f.imm12);
  }

  /** SUBS register agrees with `calculate_mathOps`. */
  lemma SubsRegAgrees(cur: CpuState, instr: bv32)
    ensures var f := DecodeRGroup(instr);
      SubsRegResult(cur, instr) == CalculateMathOps(cur, f.n, f.m, f.opt, f.imm3, true, false)
  {
    var f := DecodeRGroup(instr);
    MathOpsUnfold(cur, f.n, f.m, f.opt, f.imm3, true, false);
    RegisterOperand(cur, f.m, f.opt, f.imm3);
  }

  /** SUBS immediate sets Z and N from the difference always, but writes it
      only to a register other than 31. */
  lemma SubsImmSkipsRegister31(s: Sim, instr: bv32)
    requires !s.branchTaken
    ensures var d := instr & 0x1F;
      var res := SubsImmResult(s.current, instr);
      var r := SubsImmStep(s, instr);
      && r.next.flagZ == (res == 0) && r.next.flagN == Negative(res)
      && r.next.regs == (if d != 31 then s.next.regs[d := res] else s.next.regs)
      && r.next.pc == Add64(s.next.pc, 4)
  {
  }

  /** SUBS register: the same guard on register 31. */
  lemma SubsRegSkipsRegister31(s: Sim, instr: bv32)
    requires !s.branchTaken
    ensures var d := instr & 0x1F;
      var res := SubsRegResult(s.current, instr);
      var r := SubsRegStep(s, instr);
      && r.next.flagZ == (res == 0) && r.next.flagN == Negative(res)
      && r.next.regs == (if d != 31 then s.next.regs[d := res] else s.next.regs)
      && r.next.pc == Add64(s.next.pc, 4)
  {
  }

  /** ADDS immediate writes register `Rd` whatever it is, 31 included, and
      sets Z and N from the value written. */
  lemma AddsImmWritesAnyRegister(s: Sim, instr: bv32)
    requires !s.branchTaken
    ensures var d := instr & 0x1F;
      var res := AddsImmResult(s.current, instr);
      var r := AddsImmStep(s, instr);
      && r.next.regs == s.next.regs[d := res]
      && r.next.flagZ == (res == 0) && r.next.flagN == Negative(res)
      && r.next.pc == Add64(s.next.pc, 4)
  {
  }

  // ---------------------------------------------------------------------
  // Branches.
  // ---------------------------------------------------------------------

  /** `decode_b_format` yields `sign_extend(imm26, 26) * 4` written out in
      bits: the low two bits clear, bits 27:2 the field and bits 63:28
      copies of bit 25 of the word. */
  lemma BFormatOffsetBits(instr: bv32)
    ensures DecodeBFormat(instr).imm & 3 == 0
    ensures (DecodeBFormat(instr).imm >> 2) & 0x3FF_FFFF == (instr & 0x3FF_FFFF) as bv64
    ensures DecodeBFormat(instr).imm >> 28 == if instr & 0x200_0000 != 0 then 0xF_FFFF_FFFF else 0
  {
    if instr & 0x200_0000 != 0 {
      NegativeBFormat(instr);
    } else {
      PositiveBFormat(instr);
    }
  }

  lemma NegativeBFormat(instr: bv32)
    requires instr & 0x200_0000 != 0
    ensures DecodeBFormat(instr).imm & 3 == 0
    ensures (DecodeBFormat(instr).imm >> 2) & 0x3FF_FFFF == (instr & 0x3FF_FFFF) as bv64
    ensures DecodeBFormat(instr).imm >> 28 == 0xF_FFFF_FFFF
  {
    var x := (instr & 0x3FF_FFFF) << 6;
    var y := Asr32(x, 4);
    var o := DecodeBFormat(instr).imm;
    assert o == WidenSigned32(y);
    NegativeOffset(instr, x, y, o);
  }

  lemma PositiveBFormat(instr: bv32)
    requires instr & 0x200_0000 == 0
    ensures DecodeBFormat(instr).imm & 3 == 0
    ensures (DecodeBFormat(instr).imm >> 2) & 0x3FF_FFFF == (instr & 0x3FF_FFFF) as bv64
    ensures DecodeBFormat(instr).imm >> 28 == 0
  {
    var x := (instr & 0x3FF_FFFF) << 6;
    var y := Asr32(x, 4);
    var o := DecodeBFormat(instr).imm;
    assert o == WidenSigned32(y);
    PositiveOffset(instr, x, y, o);
  }

  /** A negative field: the offset in terms of the two shifts, then its bits. */
  lemma NegativeOffset(instr: bv32, x: bv32, y: bv32, o: bv64)
    requires instr & 0x200_0000 != 0
    requires x == (instr & 0x3FF_FFFF) << 6 && y == Asr32(x, 4) && o == WidenSigned32(y)
    ensures o & 3 == 0 && (o >> 2) & 0x3FF_FFFF == (instr & 0x3FF_FFFF) as bv64 && o >> 28 == 0xF_FFFF_FFFF
  {
    NegativeAsr4(x);
    NegativeBField(instr, x, y);
    NegativeWiden(y, o);
    NegativeWide(instr, y, o);
  }

  /** A non-negative field: the same two steps. */
  lemma PositiveOffset(instr: bv32, x: bv32, y: bv32, o: bv64)
    requires instr & 0x200_0000 == 0
    requires x == (instr & 0x3FF_FFFF) << 6 && y == Asr32(x, 4) && o == WidenSigned32(y)
    ensures o & 3 == 0 && (o >> 2) & 0x3FF_FFFF == (instr & 0x3FF_FFFF) as bv64 && o >> 28 == 0
  {
    PositiveAsr4(x);
    PositiveBField(instr, x, y);
    PositiveWiden(y, o);
    PositiveWide(instr, y, o);
  }

  lemma NegativeWiden(y: bv32, o: bv64)
    requires y & 0x8000_0000 != 0 && o == WidenSigned32(y)
    ensures o == 0xFFFF_FFFF_0000_0000 | y as bv64
  {
    WidenSigned32Bits(y);
  }

  lemma PositiveWiden(y: bv32, o: bv64)
    requires y & 0x8000_0000 == 0 && o == WidenSigned32(y)
    ensures o == 0 | y as bv64
  {
    WidenSigned32Bits(y);
  }

  lemma NegativeAsr4(x: bv32)
    requires x & 0x8000_0000 != 0
    ensures Asr32(x, 4) == !((!x) >> 4)
  {
  }

  lemma PositiveAsr4(x: bv32)
    requires x & 0x8000_0000 == 0
    ensures Asr32(x, 4) == x >> 4
  {
  }

  lemma NegativeBField(instr: bv32, x: bv32, y: bv32)
    requires instr & 0x200_0000 != 0
    requires x == (instr & 0x3FF_FFFF) << 6 && y == !((!x) >> 4)
    ensures y & 0x8000_0000 != 0 && y & 3 == 0 && (y >> 2) & 0x3FF_FFFF == instr & 0x3FF_FFFF
    ensures y >> 28 == 0xF
  {
  }

  lemma PositiveBField(instr: bv32, x: bv32, y: bv32)
    requires instr & 0x200_0000 == 0
    requires x == (instr & 0x3FF_FFFF) << 6 && y == x >> 4
    ensures y & 0x8000_0000 == 0 && y & 3 == 0 && (y >> 2) & 0x3FF_FFFF == instr & 0x3FF_FFFF
    ensures y >> 28 == 0
  {
  }

  lemma NegativeWide(instr: bv32, y: bv32, o: bv64)
    requires y & 3 == 0 && (y >> 2) & 0x3FF_FFFF == instr & 0x3FF_FFFF && y >> 28 == 0xF
    requires o == 0xFFFF_FFFF_0000_0000 | y as bv64
    ensures o & 3 == 0 && (o >> 2) & 0x3FF_FFFF == (instr & 0x3FF_FFFF) as bv64 && o >> 28 == 0xF_FFFF_FFFF
  {
  }

  lemma PositiveWide(instr: bv32, y: bv32, o: bv64)
    requires y & 3 == 0 && (y >> 2) & 0x3FF_FFFF == instr & 0x3FF_FFFF && y >> 28 == 0
    requires o == 0 | y as bv64
    ensures o & 3 == 0 && (o >> 2) & 0x3FF_FFFF == (instr & 0x3FF_FFFF) as bv64 && o >> 28 == 0
  {
  }

  /** The two ways the engines compute the B offset, a 32-bit arithmetic
      shift widened (src/sim1.c) and a widening followed by a 64-bit
      arithmetic shift (src/handlers.c), give the same value. */
  lemma BFormatAgreesWithHandlers(instr: bv32)
    ensures DecodeBFormat(instr).imm == Handlers.BranchOffset(instr)
  {
    var a := DecodeBFormat(instr).imm;
    var b := Handlers.BranchOffset(instr);
    OffsetsLowBits(instr, a, b);
    OffsetsFields(instr, a, b);
    OffsetsHighBits(instr, a, b);
    SameBits(a, b, instr & 0x200_0000 != 0);
  }

  /** The bits of both offsets, a group at a time. */
  lemma OffsetsLowBits(instr: bv32, a: bv64, b: bv64)
    requires a == DecodeBFormat(instr).imm && b == Handlers.BranchOffset(instr)
    ensures a & 3 == 0 && b & 3 == 0
  {
    BFormatOffsetBits(instr);
    HandlerProperties.BranchOffsetBits(instr);
  }

  lemma OffsetsFields(instr: bv32, a: bv64, b: bv64)
    requires a == DecodeBFormat(instr).imm && b == Handlers.BranchOffset(instr)
    ensures (a >> 2) & 0x3FF_FFFF == (instr & 0x3FF_FFFF) as bv64
    ensures (b >> 2) & 0x3FF_FFFF == (instr & 0x3FF_FFFF) as bv64
  {
    BFormatOffsetBits(instr);
    HandlerProperties.BranchOffsetBits(instr);
  }

  lemma OffsetsHighBits(instr: bv32, a: bv64, b: bv64)
    requires a == DecodeBFormat(instr).imm && b == Handlers.BranchOffset(instr)
    ensures a >> 28 == (if instr & 0x200_0000 != 0 then 0xF_FFFF_FFFF else 0)
    ensures b >> 28 == (if instr & 0x200_0000 != 0 then 0xF_FFFF_FFFF else 0)
  {
    BFormatOffsetBits(instr);
    HandlerProperties.BranchOffsetBits(instr);
  }

  /** A doubleword is fixed by its low two bits, bits 27:2 and bits 63:28. */
  lemma SameBits(a: bv64, b: bv64, negative: bool)
    requires a & 3 == b & 3 && (a >> 2) & 0x3FF_FFFF == (b >> 2) & 0x3FF_FFFF
    requires a >> 28 == (if negative then 0xF_FFFF_FFFF else 0)
    requires b >> 28 == (if negative then 0xF_FFFF_FFFF else 0)
    ensures a == b
  {
  }

  /** B sets NEXT_STATE.PC to `CURRENT_STATE.PC + 4 * sext26(imm26)` and sets
      the latch; nothing else changes. */
  lemma BLandsOnOffset(s: Sim, instr: bv32)
    ensures var r := BStep(s, instr);
      && r.next.pc == Add64(s.current.pc, Handlers.BranchOffset(instr))
      && r == s.(next := s.next.(pc := r.next.pc), branchTaken := true)
  {
    BFormatAgreesWithHandlers(instr);
  }

  /** BR writes CURRENT_STATE.PC, not NEXT_STATE.PC, and sets the latch, so
      the `+ 4` of the other handlers is skipped and NEXT_STATE is left as
      it was. */
  lemma BrWritesCurrentPc(s: Sim, instr: bv32)
    ensures var r := BrStep(s, instr);
      && r.current.pc == s.current.regs[(instr >> 5) & 0x1F]
      && r.current.regs == s.current.regs && r.next == s.next && r.branchTaken
      && r.mem == s.mem && r.runBit == s.runBit
  {
  }

  /** A taken B.cond lands at most 2 MiB above `CURRENT_STATE.PC`, on a
      multiple of four: `decode_cb_format` never sign-extends `imm19`, so
      B.cond cannot branch backwards. */
  lemma BCondNeverBackward(s: Sim, instr: bv32, check: bv32 -> bool)
    requires check(instr & 0xF)
    ensures var r := BCondStep(s, instr, check);
      && r.branchTaken
      && Sub64(r.next.pc, s.current.pc) < 0x20_0000
      && Sub64(r.next.pc, s.current.pc) & 3 == 0
  {
    SubUndoesAddLeft(s.current.pc, DecodeCbFormat(instr).imm);
  }

  /** `B.EQ` back by one instruction (`0x54FFFFE0`): the modular engine
      branches to `PC - 4`, src/sim1.c to `PC + 0x1FFFFC`. */
  lemma BCondBackOne(s: Sim, check: bv32 -> bool)
    requires check(0)
    ensures BCondStep(s, 0x54FF_FFE0, check).next.pc == Add64(s.current.pc, 0x1F_FFFC)
    ensures Add64(s.current.pc, Handlers.CondBranchOffset(0x54FF_FFE0)) == Sub64(s.current.pc, 4)
  {
    assert DecodeCbFormat(0x54FF_FFE0).imm == 0x1F_FFFC;
    HandlerProperties.CondBranchOffsetBits(0x54FF_FFE0);
    MinusFour(Handlers.CondBranchOffset(0x54FF_FFE0));
    Add64Is(s.current.pc, 0xFFFF_FFFF_FFFF_FFFC);
    Sub64Is(s.current.pc, 4);
  }

  lemma MinusFour(o: bv64)
    requires o & 3 == 0 && (o >> 2) & 0x7_FFFF == 0x7_FFFF && o >> 21 == 0x7FF_FFFF_FFFF
    ensures o == 0xFFFF_FFFF_FFFF_FFFC
  {
  }

  /** An untaken B.cond moves NEXT_STATE.PC on by four even when the latch
      is already set, and changes nothing else. */
  lemma BCondUntaken(s: Sim, instr: bv32, check: bv32 -> bool)
    requires !check(instr & 0xF)
    ensures BCondStep(s, instr, check) == s.(next := s.next.(pc := Add64(s.next.pc, 4)))
  {
  }

  /** CBZ branches exactly when `REGS[Rt]` is zero, to `CURRENT_STATE.PC`
      plus the signed offset; otherwise it sets NEXT_STATE.PC to
      `CURRENT_STATE.PC + 4`. Only NEXT_STATE.PC and the latch can change. */
  lemma CbzBranchesIff(s: Sim, instr: bv32)
    requires !s.branchTaken
    ensures var zero := s.current.regs[instr & 0x1F] == 0;
      var r := CbzStep(s, instr);
      && (r.branchTaken <==> zero)
      && r.next.pc == (if zero then Add64(s.current.pc, Handlers.CondBranchOffset(instr)) else Add64(s.current.pc, 4))
      && r == s.(next := s.next.(pc := r.next.pc), branchTaken := zero)
  {
  }

  /** CBNZ branches exactly when `REGS[Rt]` is not zero. */
  lemma CbnzBranchesIff(s: Sim, instr: bv32)
    requires !s.branchTaken
    ensures var nonzero := s.current.regs[instr & 0x1F] != 0;
      var r := CbnzStep(s, instr);
      && (r.branchTaken <==> nonzero)
      && r.next.pc == (if nonzero then Add64(s.current.pc, Handlers.CondBranchOffset(instr)) else Add64(s.current.pc, 4))
      && r == s.(next := s.next.(pc := r.next.pc), branchTaken := nonzero)
  {
  }

  // ---------------------------------------------------------------------
  // Memory.
  // ---------------------------------------------------------------------

  /** `mem_write_64` then `mem_read_64` at the same address gives the value
      back, whatever the alignment: the two words never coincide. */
  lemma PairRoundTrip(mem: Store, addr: bv64, value: bv64)
    ensures PairRead64(PairStore64(mem, addr, value), addr) == value
  {
    Add64Is(addr, 4);
    assert Add64(addr, 4) != addr;
    JoinWords(value, Low32(value), Low32((value >> 32) & 0xFFFF_FFFF));
  }

  /** STUR then LDUR through the same base register and offset loads the
      stored register whole, at any address. */
  lemma StoreThenLoadDouble(s: Sim, store: bv32, load: bv32)
    requires !s.branchTaken
    requires (store >> 5) & 0x1F == (load >> 5) & 0x1F && (store >> 12) & 0x1FF == (load >> 12) & 0x1FF
    ensures LdurStep(SturStep(s, store), load).next.regs[load & 0x1F] == s.current.regs[store & 0x1F]
  {
    var addr := DoubleAddress(s.current, store);
    assert DoubleAddress(s.current, load) == addr;
    PairRoundTrip(s.mem, addr, s.current.regs[store & 0x1F]);
  }

  /** The STURB/STURH address and the LDURB/LDURH address are the same
      `REGS[Rn] + imm9`, an unsigned offset, although one is held in an
      `int64_t` and the other in an `int32_t`. */
  lemma NarrowAddressesAgree(cur: CpuState, instr: bv32)
    ensures NarrowStoreAddress(cur, instr) == Handlers.MemAddress(cur, instr)
  {
    HandlerProperties.MemAddressUnsigned(cur, instr, (instr >> 5) & 0x1F, ((instr >> 12) & 0x1FF) as bv64);
  }

  /** Equal `Rn` and `imm9` fields give equal store and load addresses. */
  lemma SameNarrowAddress(cur: CpuState, store: bv32, load: bv32)
    requires (store >> 5) & 0x1F == (load >> 5) & 0x1F && (store >> 12) & 0x1FF == (load >> 12) & 0x1FF
    ensures NarrowStoreAddress(cur, store) == Handlers.MemAddress(cur, load)
  {
    NarrowAddressesAgree(cur, load);
  }

  /** STURB then LDURB through the same base register and offset loads the
      low byte of the stored register, zero-extended. */
  lemma StoreThenLoadByte(s: Sim, store: bv32, load: bv32, v: bv8)
    requires (store >> 5) & 0x1F == (load >> 5) & 0x1F && (store >> 12) & 0x1FF == (load >> 12) & 0x1FF
    requires v == Low8(s.current.regs[store & 0x1F])
    ensures LdurbStep(SturbStep(s, store), load).next.regs[load & 0x1F] == v as bv64
  {
    var addr := NarrowStoreAddress(s.current, store);
    var s1 := SturbStep(s, store);
    SturbWrites(s, store, addr, v);
    SameNarrowAddress(s.current, store, load);
    LdurbReads(s1, load, addr);
    HandlerProperties.LoadAfterStoreByte(s.mem, addr, v);
  }

  lemma SturbWrites(s: Sim, store: bv32, addr: bv64, v: bv8)
    requires addr == NarrowStoreAddress(s.current, store) && v == Low8(s.current.regs[store & 0x1F])
    ensures SturbStep(s, store).current == s.current && SturbStep(s, store).mem == StoreByte(s.mem, addr, v)
  {
  }

  lemma LdurbReads(s: Sim, load: bv32, addr: bv64)
    requires addr == Handlers.MemAddress(s.current, load)
    ensures LdurbStep(s, load).next.regs[load & 0x1F] == Handlers.LoadByte(s.mem, addr)
  {
  }

  /** STURH then LDURH through the same base register and offset loads the
      low halfword of the stored register, zero-extended. */
  lemma StoreThenLoadHalf(s: Sim, store: bv32, load: bv32, v: bv16)
    requires (store >> 5) & 0x1F == (load >> 5) & 0x1F && (store >> 12) & 0x1FF == (load >> 12) & 0x1FF
    requires v == Low16(s.current.regs[store & 0x1F])
    ensures LdurhStep(SturhStep(s, store), load).next.regs[load & 0x1F] == v as bv64
  {
    var addr := NarrowStoreAddress(s.current, store);
    var s1 := SturhStep(s, store);
    SturhWrites(s, store, addr, v);
    SameNarrowAddress(s.current, store, load);
    LdurhReads(s1, load, addr);
    HandlerProperties.LoadAfterStoreHalf(s.mem, addr, v);
  }

  lemma SturhWrites(s: Sim, store: bv32, addr: bv64, v: bv16)
    requires addr == NarrowStoreAddress(s.current, store) && v == Low16(s.current.regs[store & 0x1F])
    ensures SturhStep(s, store).current == s.current && SturhStep(s, store).mem == StoreHalf(s.mem, addr, v)
  {
  }

  lemma LdurhReads(s: Sim, load: bv32, addr: bv64)
    requires addr == Handlers.MemAddress(s.current, load)
    ensures LdurhStep(s, load).next.regs[load & 0x1F] == Handlers.LoadHalf(s.mem, addr)
  {
  }

  // ---------------------------------------------------------------------
  // MOVZ and the shifts.
  // ---------------------------------------------------------------------

  /** MOVZ writes `imm16` unshifted whatever `hw` is (a non-zero `hw` only
      draws a message). */
  lemma MovzIgnoresHw(s: Sim, instr: bv32)
    ensures MovzStep(s, instr) == MovzStep(s, instr & !0x60_0000)
    ensures MovzStep(s, instr).next.regs[instr & 0x1F] == ((instr >> 5) & 0xFFFF) as bv64
  {
    HandlerProperties.HwBitsOutsideFields(instr);
  }
}
