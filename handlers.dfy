/** One handler per mnemonic of the modular engine. Each handler is given
    twice: `XStep` says what the handler does to a snapshot of the globals,
    and `HandleX` does it in place on the `Machine`, proved to agree with
    `XStep`. The lemmas further down state what each handler promises. */
module Handlers {
  import opened Bits
  import opened Shell
  import opened Decode

  // ---------------------------------------------------------------------
  // Operands shared by several handlers.
  // ---------------------------------------------------------------------

  /** `NEXT_STATE.REGS[d] = v`. */
  function SetReg(c: CpuState, d: bv32, v: bv64): CpuState
    requires d < 32
  {
    c.(regs := c.regs[d := v])
  }

  /** The shifted second operand of ANDS: LSL, LSR, ASR or ROR by `imm6`.
      ROR by 0 would shift by 64, which C leaves undefined. */
  function ShiftOperand(op2: bv64, shift: bv32, imm6: bv32): bv64
    requires shift < 4 && imm6 < 64
    requires shift == 3 ==> imm6 != 0
  {
    if shift == 0 then op2 << imm6
    else if shift == 1 then op2 >> imm6
    else if shift == 2 then Asr(op2, imm6)
    else Ror(op2, imm6)
  }

  /** The shifted second operand of EOR, where an amount of 0 leaves the
      operand as it is for every shift type. */
  function EorOperand(op2: bv64, shift: bv32, imm6: bv32): bv64
    requires shift < 4 && imm6 < 64
  {
    if imm6 == 0 then op2 else ShiftOperand(op2, shift, imm6)
  }

  /** ANDS is defined unless it asks for ROR by 0. */
  predicate AndsDefined(instr: bv32) {
    var f := DecodeShiftedRegister(instr);
    f.shift == 3 ==> f.imm6 != 0
  }

  /** `((int64_t)(imm26 << 6)) >> 4`: the 32-bit shift moves bit 25 into the
      sign bit, the cast widens it and the arithmetic shift leaves the
      offset times four. */
  function BranchOffset(instr: bv32): bv64 {
    Asr(WidenSigned32((instr & 0x3FF_FFFF) << 6), 4)
  }

  /** `(int64_t)imm19 << 2` with `imm19 = sign_extend(bits[23:5], 19)` held
      in an `int32_t`. */
  function CondBranchOffset(instr: bv32): bv64 {
    var imm19 := Low32(SignExtend(((instr >> 5) & 0x7_FFFF) as bv64, 19));
    WidenSigned32(imm19) << 2
  }

  /** The effective address of the load and store handlers: `imm9` is
      passed through `sign_extend(imm9, 64)` into an `int32_t` again and is
      widened for the 64-bit add. */
  function MemAddress(cur: CpuState, instr: bv32): bv64 {
    var f := DecodeMemAccess(instr);
    var imm9 := Low32(SignExtend(f.imm9 as bv64, 64));
    Add64(cur.regs[f.n], WidenSigned32(imm9))
  }

  /** The switch of `handle_b_cond` on `instr & 0xF`; any other code sets
      nothing. */
  predicate BCondHolds(cond: bv32, z: bool, n: bool) {
    if cond == 0x0 then z
    else if cond == 0x1 then !z
    else if cond == 0xA then !n
    else if cond == 0xB then n
    else if cond == 0xC then !z && !n
    else if cond == 0xD then z || n
    else false
  }

  // ---------------------------------------------------------------------
  // The values the handlers compute.
  // ---------------------------------------------------------------------

  /** `op1 & op2` of ANDS, with `op2` shifted by the switch. */
  function AndsResult(cur: CpuState, instr: bv32): bv64
    requires AndsDefined(instr)
  {
    var f := DecodeShiftedRegister(instr);
    cur.regs[f.n] & ShiftOperand(cur.regs[f.m], f.shift, f.imm6)
  }

  /** `op1 ^ op2` of EOR. */
  function EorResult(cur: CpuState, instr: bv32): bv64 {
    var f := DecodeShiftedRegister(instr);
    cur.regs[f.n] ^ EorOperand(cur.regs[f.m], f.shift, f.imm6)
  }

  /** `REGS[n] | REGS[m]` of ORR. */
  function OrrResult(cur: CpuState, instr: bv32): bv64 {
    var f := DecodeRGroup(instr);
    cur.regs[f.n] | cur.regs[f.m]
  }

  /** `REGS[n] * REGS[m]` of MUL, modulo 2^64. */
  function MulResult(cur: CpuState, instr: bv32): bv64 {
    var f := DecodeRGroup(instr);
    cur.regs[f.n] * cur.regs[f.m]
  }

  /** `REGS[n] + imm` of ADD immediate, with `imm12 << 12` done in 32 bits. */
  function AddImmResult(cur: CpuState, instr: bv32): bv64 {
    var f := DecodeIGroup(instr);
    var imm: bv64 := if f.shift == 1 then (f.imm12 << 12) as bv64 else f.imm12 as bv64;
    Add64(cur.regs[f.n], imm)
  }

  /** `REGS[n] + extend_register(REGS[m], opt, imm3)` of ADD register. */
  function AddRegResult(cur: CpuState, instr: bv32): bv64 {
    var f := DecodeRGroup(instr);
    Add64(cur.regs[f.n], ExtendRegister(cur.regs[f.m], f.opt, f.imm3))
  }

  /** The shift of `handle_shift`: bits[21:16] are the amount; 63 shifts
      right, anything else shifts left. */
  function ShiftResult(cur: CpuState, instr: bv32): bv64 {
    var n := (instr >> 5) & 0x1F;
    var amount := (instr >> 16) & 0x3F;
    if amount == 0x3F then cur.regs[n] >> amount else cur.regs[n] << amount
  }

  /** `CURRENT_STATE.PC + offset` of CBZ and CBNZ, where the `uint32_t`
      offset is zero-extended for the 64-bit add. */
  function CompareBranchTarget(cur: CpuState, instr: bv32): bv64 {
    Add64(cur.pc, DecodeConditionalBranch(instr).offset as bv64)
  }

  /** The value `mem_read_16` returns, zero-extended into a register. */
  function LoadHalf(mem: Store, addr: bv64): (r: bv64)
    ensures r < 0x1_0000 && r as bv16 == MemRead16(mem, addr)
  {
    MemRead16(mem, addr) as bv64
  }

  /** The value `mem_read_8` returns, zero-extended into a register. */
  function LoadByte(mem: Store, addr: bv64): (r: bv64)
    ensures r < 0x100 && r as bv8 == MemRead8(mem, addr)
  {
    MemRead8(mem, addr) as bv64
  }

  // ---------------------------------------------------------------------
  // What each handler does to the globals.
  // ---------------------------------------------------------------------

  function HltStep(s: Sim, instr: bv32): Sim {
    s.(runBit := false)
  }

  function AddsImmStep(s: Sim, instr: bv32): Sim {
    var f := DecodeIGroup(instr);
    var res := CalculateMathOps(s.current, f.n, 0, f.shift, f.imm12, false, true);
    s.(next := WithFlags(SetReg(s.next, f.d, res), res))
  }

  function AddsRegStep(s: Sim, instr: bv32): Sim {
    var f := DecodeRGroup(instr);
    var res := CalculateMathOps(s.current, f.n, f.m, f.opt, f.imm3, false, false);
    s.(next := WithFlags(SetReg(s.next, f.d, res), res))
  }

  function SubsImmStep(s: Sim, instr: bv32): Sim {
    var f := DecodeIGroup(instr);
    var res := CalculateMathOps(s.current, f.n, 0, f.shift, f.imm12, true, true);
    var flagged := WithFlags(s.next, res);
    s.(next := if f.d != 31 then SetReg(flagged, f.d, res) else flagged)
  }

  function SubsRegStep(s: Sim, instr: bv32): Sim {
    var f := DecodeRGroup(instr);
    var res := CalculateMathOps(s.current, f.n, f.m, f.opt, f.imm3, true, false);
    var flagged := WithFlags(s.next, res);
    s.(next := if f.d != 31 then SetReg(flagged, f.d, res) else flagged)
  }

  function AndsStep(s: Sim, instr: bv32): Sim
    requires AndsDefined(instr)
  {
    var res := AndsResult(s.current, instr);
    s.(next := WithFlags(SetReg(s.next, DecodeShiftedRegister(instr).d, res), res))
  }

  function EorStep(s: Sim, instr: bv32): Sim {
    var res := EorResult(s.current, instr);
    s.(next := WithFlags(SetReg(s.next, DecodeShiftedRegister(instr).d, res), res))
  }

  function OrrStep(s: Sim, instr: bv32): Sim {
    s.(next := SetReg(s.next, DecodeRGroup(instr).d, OrrResult(s.current, instr)))
  }

  function BStep(s: Sim, instr: bv32): Sim {
    s.(next := s.next.(pc := Add64(s.next.pc, Sub64(BranchOffset(instr), 4))))
  }

  function BrStep(s: Sim, instr: bv32): Sim {
    var n := (instr >> 5) & 0x1F;
    s.(next := s.next.(pc := Sub64(s.current.regs[n], 4)))
  }

  function SturStep(s: Sim, instr: bv32): Sim
    requires StoreDoubleDefined(MemAddress(s.current, instr))
  {
    var f := DecodeMemAccess(instr);
    s.(mem := StoreDouble(s.mem, MemAddress(s.current, instr), s.current.regs[f.t]))
  }

  function SturbStep(s: Sim, instr: bv32): Sim {
    var f := DecodeMemAccess(instr);
    s.(mem := StoreByte(s.mem, MemAddress(s.current, instr), Low8(s.current.regs[f.t])))
  }

  function SturhStep(s: Sim, instr: bv32): Sim {
    var f := DecodeMemAccess(instr);
    s.(mem := StoreHalf(s.mem, MemAddress(s.current, instr), Low16(s.current.regs[f.t])))
  }

  function LdurStep(s: Sim, instr: bv32): Sim {
    var f := DecodeMemAccess(instr);
    s.(next := SetReg(s.next, f.t, MemRead64(s.mem, MemAddress(s.current, instr))))
  }

  function LdurbStep(s: Sim, instr: bv32): Sim {
    var f := DecodeMemAccess(instr);
    s.(next := SetReg(s.next, f.t, LoadByte(s.mem, MemAddress(s.current, instr))))
  }

  function LdurhStep(s: Sim, instr: bv32): Sim {
    var f := DecodeMemAccess(instr);
    s.(next := SetReg(s.next, f.t, LoadHalf(s.mem, MemAddress(s.current, instr))))
  }

  /** B.cond only ever sets `branch_taken`, and moves NEXT_STATE.PC whenever
      the latch is set afterwards. */
  function BCondStep(s: Sim, instr: bv32): Sim {
    var taken := s.branchTaken || BCondHolds(instr & 0xF, s.current.flagZ, s.current.flagN);
    s.(branchTaken := taken,
       next := if taken then s.next.(pc := Add64(s.current.pc, CondBranchOffset(instr))) else s.next)
  }

  function MovzStep(s: Sim, instr: bv32): Sim {
    var d := instr & 0x1F;
    var imm16 := (instr >> 5) & 0xFFFF;
    s.(next := SetReg(s.next, d, imm16 as bv64))
  }

  function AddImmStep(s: Sim, instr: bv32): Sim {
    s.(next := SetReg(s.next, DecodeIGroup(instr).d, AddImmResult(s.current, instr)))
  }

  function AddRegStep(s: Sim, instr: bv32): Sim {
    s.(next := SetReg(s.next, DecodeRGroup(instr).d, AddRegResult(s.current, instr)))
  }

  function MulStep(s: Sim, instr: bv32): Sim {
    s.(next := SetReg(s.next, DecodeRGroup(instr).d, MulResult(s.current, instr)))
  }

  function CbzStep(s: Sim, instr: bv32): Sim {
    if s.current.regs[instr & 0x1F] == 0 then
      s.(branchTaken := true, next := s.next.(pc := CompareBranchTarget(s.current, instr)))
    else s
  }

  function CbnzStep(s: Sim, instr: bv32): Sim {
    if s.current.regs[instr & 0x1F] != 0 then
      s.(branchTaken := true, next := s.next.(pc := CompareBranchTarget(s.current, instr)))
    else s
  }

  function ShiftStep(s: Sim, instr: bv32): Sim {
    s.(next := SetReg(s.next, instr & 0x1F, ShiftResult(s.current, instr)))
  }

  // ---------------------------------------------------------------------
  // The handlers as the table stores them.
  // ---------------------------------------------------------------------

  datatype Handler =
    | Hlt | AddsImm | AddsReg | SubsImm | SubsReg | Ands | Eor | Orr
    | B | Br | BCond | Cbz | Cbnz | Ldur | Ldurb | Ldurh | Stur | Sturb | Sturh
    | Movz | AddImm | AddReg | Mul | Shift

  /** The handler stays inside what C defines for this word and state. */
  predicate Defined(h: Handler, s: Sim, instr: bv32) {
    match h
    case Ands => AndsDefined(instr)
    case Stur => StoreDoubleDefined(MemAddress(s.current, instr))
    case _ => true
  }

  /** Calling handler `h` on `instr`. */
  function Execute(h: Handler, s: Sim, instr: bv32): Sim
    requires Defined(h, s, instr)
  {
    match h
    case Hlt => HltStep(s, instr)
    case AddsImm => AddsImmStep(s, instr)
    case AddsReg => AddsRegStep(s, instr)
    case SubsImm => SubsImmStep(s, instr)
    case SubsReg => SubsRegStep(s, instr)
    case Ands => AndsStep(s, instr)
    case Eor => EorStep(s, instr)
    case Orr => OrrStep(s, instr)
    case B => BStep(s, instr)
    case Br => BrStep(s, instr)
    case BCond => BCondStep(s, instr)
    case Cbz => CbzStep(s, instr)
    case Cbnz => CbnzStep(s, instr)
    case Ldur => LdurStep(s, instr)
    case Ldurb => LdurbStep(s, instr)
    case Ldurh => LdurhStep(s, instr)
    case Stur => SturStep(s, instr)
    case Sturb => SturbStep(s, instr)
    case Sturh => SturhStep(s, instr)
    case Movz => MovzStep(s, instr)
    case AddImm => AddImmStep(s, instr)
    case AddReg => AddRegStep(s, instr)
    case Mul => MulStep(s, instr)
    case Shift => ShiftStep(s, instr)
  }

  // ---------------------------------------------------------------------
  // The handlers in place.
  // ---------------------------------------------------------------------

  method HandleHlt(m: Machine, instr: bv32)
    modifies m
    ensures m.State() == HltStep(old(m.State()), instr)
  {
    m.runBit := false;
  }

  method HandleAddsImm(m: Machine, instr: bv32)
    modifies m
    ensures m.State() == AddsImmStep(old(m.State()), instr)
  {
    var f := DecodeIGroup(instr);
    var res := CalculateMathOps(m.current, f.n, 0, f.shift, f.imm12, false, true);
    m.next := SetReg(m.next, f.d, res);
    UpdateFlags(m, res);
  }

  method HandleAddsReg(m: Machine, instr: bv32)
    modifies m
    ensures m.State() == AddsRegStep(old(m.State()), instr)
  {
    var f := DecodeRGroup(instr);
    var res := CalculateMathOps(m.current, f.n, f.m, f.opt, f.imm3, false, false);
    m.next := SetReg(m.next, f.d, res);
    UpdateFlags(m, res);
  }

  method HandleSubsImm(m: Machine, instr: bv32)
    modifies m
    ensures m.State() == SubsImmStep(old(m.State()), instr)
  {
    var f := DecodeIGroup(instr);
    var res := CalculateMathOps(m.current, f.n, 0, f.shift, f.imm12, true, true);
    UpdateFlags(m, res);
    if f.d != 31 {
      m.next := SetReg(m.next, f.d, res);
    }
  }

  method HandleSubsReg(m: Machine, instr: bv32)
    modifies m
    ensures m.State() == SubsRegStep(old(m.State()), instr)
  {
    var f := DecodeRGroup(instr);
    var res := CalculateMathOps(m.current, f.n, f.m, f.opt, f.imm3, true, false);
    UpdateFlags(m, res);
    if f.d != 31 {
      m.next := SetReg(m.next, f.d, res);
    }
  }

  method HandleAnds(m: Machine, instr: bv32)
    requires AndsDefined(instr)
    modifies m
    ensures m.State() == AndsStep(old(m.State()), instr)
  {
    var f := DecodeShiftedRegister(instr);
    var res := AndsResult(m.current, instr);
    m.next := SetReg(m.next, f.d, res);
    UpdateFlags(m, res);
  }

  method HandleEor(m: Machine, instr: bv32)
    modifies m
    ensures m.State() == EorStep(old(m.State()), instr)
  {
    var f := DecodeShiftedRegister(instr);
    var res := EorResult(m.current, instr);
    m.next := SetReg(m.next, f.d, res);
    UpdateFlags(m, res);
  }

  method HandleOrr(m: Machine, instr: bv32)
    modifies m
    ensures m.State() == OrrStep(old(m.State()), instr)
  {
    var f := DecodeRGroup(instr);
    m.next := SetReg(m.next, f.d, OrrResult(m.current, instr));
  }

  method HandleB(m: Machine, instr: bv32)
    modifies m
    ensures m.State() == BStep(old(m.State()), instr)
  {
    var offset := BranchOffset(instr);
    m.next := m.next.(pc := Add64(m.next.pc, Sub64(offset, 4)));
  }

  method HandleBr(m: Machine, instr: bv32)
    modifies m
    ensures m.State() == BrStep(old(m.State()), instr)
  {
    var n := (instr >> 5) & 0x1F;
    m.next := m.next.(pc := Sub64(m.current.regs[n], 4));
  }

  method HandleStur(m: Machine, instr: bv32)
    requires StoreDoubleDefined(MemAddress(m.current, instr))
    modifies m
    ensures m.State() == SturStep(old(m.State()), instr)
  {
    var f := DecodeMemAccess(instr);
    var addr := MemAddress(m.current, instr);
    MemWrite64(m, addr, m.current.regs[f.t]);
  }

  method HandleSturb(m: Machine, instr: bv32)
    modifies m
    ensures m.State() == SturbStep(old(m.State()), instr)
  {
    var f := DecodeMemAccess(instr);
    var addr := MemAddress(m.current, instr);
    MemWrite8(m, addr, Low8(m.current.regs[f.t]));
  }

  method HandleSturh(m: Machine, instr: bv32)
    modifies m
    ensures m.State() == SturhStep(old(m.State()), instr)
  {
    var f := DecodeMemAccess(instr);
    var addr := MemAddress(m.current, instr);
    MemWrite16(m, addr, Low16(m.current.regs[f.t]));
  }

  method HandleLdur(m: Machine, instr: bv32)
    modifies m
    ensures m.State() == LdurStep(old(m.State()), instr)
  {
    var f := DecodeMemAccess(instr);
    var addr := MemAddress(m.current, instr);
    m.next := SetReg(m.next, f.t, MemRead64(m.mem, addr));
  }

  method HandleLdurb(m: Machine, instr: bv32)
    modifies m
    ensures m.State() == LdurbStep(old(m.State()), instr)
  {
    var f := DecodeMemAccess(instr);
    var addr := MemAddress(m.current, instr);
    m.next := SetReg(m.next, f.t, LoadByte(m.mem, addr));
  }

  method HandleLdurh(m: Machine, instr: bv32)
    modifies m
    ensures m.State() == LdurhStep(old(m.State()), instr)
  {
    var f := DecodeMemAccess(instr);
    var addr := MemAddress(m.current, instr);
    m.next := SetReg(m.next, f.t, LoadHalf(m.mem, addr));
  }

  method HandleBCond(m: Machine, instr: bv32)
    modifies m
    ensures m.State() == BCondStep(old(m.State()), instr)
  {
    var offset := CondBranchOffset(instr);
    var cond := instr & 0xF;
    if BCondHolds(cond, m.current.flagZ, m.current.flagN) {
      m.branchTaken := true;
    }
    if m.branchTaken {
      m.next := m.next.(pc := Add64(m.current.pc, offset));
    }
  }

  method HandleMovz(m: Machine, instr: bv32)
    modifies m
    ensures m.State() == MovzStep(old(m.State()), instr)
  {
    var d := instr & 0x1F;
    var imm16 := (instr >> 5) & 0xFFFF;
    m.next := SetReg(m.next, d, imm16 as bv64);
  }

  method HandleAddImm(m: Machine, instr: bv32)
    modifies m
    ensures m.State() == AddImmStep(old(m.State()), instr)
  {
    var f := DecodeIGroup(instr);
    m.next := SetReg(m.next, f.d, AddImmResult(m.current, instr));
  }

  method HandleAddReg(m: Machine, instr: bv32)
    modifies m
    ensures m.State() == AddRegStep(old(m.State()), instr)
  {
    var f := DecodeRGroup(instr);
    m.next := SetReg(m.next, f.d, AddRegResult(m.current, instr));
  }

  method HandleMul(m: Machine, instr: bv32)
    modifies m
    ensures m.State() == MulStep(old(m.State()), instr)
  {
    var f := DecodeRGroup(instr);
    m.next := SetReg(m.next, f.d, MulResult(m.current, instr));
  }

  method HandleCbz(m: Machine, instr: bv32)
    modifies m
    ensures m.State() == CbzStep(old(m.State()), instr)
  {
    var f := DecodeConditionalBranch(instr);
    if m.current.regs[f.t] == 0 {
      m.branchTaken := true;
      m.next := m.next.(pc := CompareBranchTarget(m.current, instr));
    }
  }

  method HandleCbnz(m: Machine, instr: bv32)
    modifies m
    ensures m.State() == CbnzStep(old(m.State()), instr)
  {
    var f := DecodeConditionalBranch(instr);
    if m.current.regs[f.t] != 0 {
      m.branchTaken := true;
      m.next := m.next.(pc := CompareBranchTarget(m.current, instr));
    }
  }

  method HandleShift(m: Machine, instr: bv32)
    modifies m
    ensures m.State() == ShiftStep(old(m.State()), instr)
  {
    var d := instr & 0x1F;
    m.next := SetReg(m.next, d, ShiftResult(m.current, instr));
  }

  /** Calling the handler the table returned: `handler(instr)`. */
  method Dispatch(m: Machine, h: Handler, instr: bv32)
    requires Defined(h, m.State(), instr)
    modifies m
    ensures m.State() == Execute(h, old(m.State()), instr)
  {
    match h
    case Hlt => HandleHlt(m, instr);
    case AddsImm => HandleAddsImm(m, instr);
    case AddsReg => HandleAddsReg(m, instr);
    case SubsImm => HandleSubsImm(m, instr);
    case SubsReg => HandleSubsReg(m, instr);
    case Ands => HandleAnds(m, instr);
    case Eor => HandleEor(m, instr);
    case Orr => HandleOrr(m, instr);
    case B => HandleB(m, instr);
    case Br => HandleBr(m, instr);
    case BCond => HandleBCond(m, instr);
    case Cbz => HandleCbz(m, instr);
    case Cbnz => HandleCbnz(m, instr);
    case Ldur => HandleLdur(m, instr);
    case Ldurb => HandleLdurb(m, instr);
    case Ldurh => HandleLdurh(m, instr);
    case Stur => HandleStur(m, instr);
    case Sturb => HandleSturb(m, instr);
    case Sturh => HandleSturh(m, instr);
    case Movz => HandleMovz(m, instr);
    case AddImm => HandleAddImm(m, instr);
    case AddReg => HandleAddReg(m, instr);
    case Mul => HandleMul(m, instr);
    case Shift => HandleShift(m, instr);
  }
}
