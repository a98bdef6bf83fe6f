/** The handlers of the monolithic engine (src/sim1.c). Each fetches its
    fields through one of the struct-returning decoders or by hand, writes
    NEXT_STATE (BR writes CURRENT_STATE.PC), and ends by moving NEXT_STATE.PC
    on by four unless a branch has set `branch_taken`. As in module
    Handlers, each handler is given as a step function `XStep` and as a
    method `HandleX` proved to agree with it. */
module Sim1Handlers {
  import opened Bits
  import opened Shell
  import opened Decode
  import Handlers

  // ---------------------------------------------------------------------
  // The decoded-instruction record and its six decoders. A field the
  // format does not name is zero, as in a C compound literal.
  // ---------------------------------------------------------------------

  datatype DecodedInstruction = DecodedInstruction(
    opcode: bv32, rd: bv32, rn: bv32, rm: bv32, shamt: bv32,
    imm: bv64, cond: bv32, rt: bv32, shiftType: bv32)

  /** The all-zero record. */
  const Blank := DecodedInstruction(0, 0, 0, 0, 0, 0, 0, 0, 0)

  /** `decode_r_format`: the register fields, the four opcode bits above
      `Rm`, and bits 15:10 as `shamt`. */
  function DecodeRFormat(instr: bv32): (d: DecodedInstruction)
    ensures d.rd < 32 && d.rn < 32 && d.rm < 32 && d.shamt < 64 && d.opcode < 16
    ensures (d.opcode << 21) | (d.rm << 16) | (d.shamt << 10) | (d.rn << 5) | d.rd == instr & 0x1FF_FFFF
    ensures d.imm == 0 && d.cond == 0 && d.rt == 0 && d.shiftType == 0
  {
    Blank.(opcode := (instr >> 21) & 0xF, rd := instr & 0x1F, rn := (instr >> 5) & 0x1F,
           rm := (instr >> 16) & 0x1F, shamt := (instr >> 10) & 0x3F)
  }

  /** `decode_i_format`: bits 23:22 go to both `opcode` and `shamt`, the
      12-bit immediate to `imm`. */
  function DecodeIFormat(instr: bv32): (d: DecodedInstruction)
    ensures d.rd < 32 && d.rn < 32 && d.imm < 0x1000 && d.shamt < 4 && d.opcode == d.shamt
    ensures (d.shamt << 22) | ((d.imm as bv32) << 10) | (d.rn << 5) | d.rd == instr & 0xFF_FFFF
    ensures d.rm == 0 && d.cond == 0 && d.rt == 0 && d.shiftType == 0
  {
    Blank.(opcode := (instr >> 22) & 0x3, rd := instr & 0x1F, rn := (instr >> 5) & 0x1F,
           imm := ((instr >> 10) & 0xFFF) as bv64, shamt := (instr >> 22) & 0x3)
  }

  /** `decode_d_format`: `Rt`, `Rn` and the nine offset bits 20:12, the same
      fields `decode_mem_access` of src/decode.c returns. */
  function DecodeDFormat(instr: bv32): (d: DecodedInstruction)
    ensures d.rt < 32 && d.rn < 32 && d.imm < 0x200
    ensures d.rt == DecodeMemAccess(instr).t && d.rn == DecodeMemAccess(instr).n
    ensures d.imm == DecodeMemAccess(instr).imm9 as bv64
    ensures d.(rt := 0, rn := 0, imm := 0) == Blank
  {
    Blank.(rt := instr & 0x1F, rn := (instr >> 5) & 0x1F, imm := ((instr >> 12) & 0x1FF) as bv64)
  }

  /** `decode_b_format`: `(int32_t)imm26 << 6 >> 4`, an arithmetic shift
      on 32 bits, widened into the `int64_t` field. */
  function DecodeBFormat(instr: bv32): (d: DecodedInstruction)
    ensures d.(imm := 0) == Blank
  {
    Blank.(imm := WidenSigned32(Asr32((instr & 0x3FF_FFFF) << 6, 4)))
  }

  /** `decode_cb_format`: the condition in bits 3:0 (overlapping `Rt`), and
      `(int32_t)imm19 << 2` with no sign extension, so the offset is never
      negative. */
  function DecodeCbFormat(instr: bv32): (d: DecodedInstruction)
    ensures d.cond < 16 && d.rt < 32 && d.cond == d.rt & 0xF
    ensures d.imm & 3 == 0 && d.imm >> 2 == ((instr >> 5) & 0x7_FFFF) as bv64
    ensures d.(cond := 0, rt := 0, imm := 0) == Blank
  {
    Blank.(cond := instr & 0xF, rt := instr & 0x1F, imm := (((instr >> 5) & 0x7_FFFF) << 2) as bv64)
  }

  /** `decode_iw_format`: `Rd`, the 16-bit immediate and `hw` in `shamt`. */
  function DecodeIwFormat(instr: bv32): (d: DecodedInstruction)
    ensures d.rd < 32 && d.imm < 0x1_0000 && d.shamt < 4
    ensures (d.shamt << 21) | ((d.imm as bv32) << 5) | d.rd == instr & 0x7F_FFFF
    ensures d.(rd := 0, imm := 0, shamt := 0) == Blank
  {
    Blank.(rd := instr & 0x1F, imm := ((instr >> 5) & 0xFFFF) as bv64, shamt := (instr >> 21) & 0x3)
  }

  // ---------------------------------------------------------------------
  // The 64-bit accessors of src/sim1.c: two word accesses at `addr` and
  // `addr + 4`, whatever the alignment (a misaligned address only draws a
  // warning).
  // ---------------------------------------------------------------------

  /** `mem_read_64(addr)`: the word at `addr + 4` above the word at `addr`. */
  function PairRead64(mem: Store, addr: bv64): bv64 {
    ((MemRead32(mem, Add64(addr, 4)) as bv64) << 32) | MemRead32(mem, addr) as bv64
  }

  /** The store after `mem_write_64(addr, value)`: the low word at `addr`,
      then the high word at `addr + 4`; every other word is kept. */
  function PairStore64(mem: Store, addr: bv64, value: bv64): (r: Store)
    ensures MemRead32(r, addr) == Low32(value)
    ensures MemRead32(r, Add64(addr, 4)) == Low32((value >> 32) & 0xFFFF_FFFF)
    ensures forall b :: b != addr && b != Add64(addr, 4) ==> MemRead32(r, b) == MemRead32(mem, b)
  {
    Add64Is(addr, 4);
    StoreWord(StoreWord(mem, addr, Low32(value)), Add64(addr, 4), Low32((value >> 32) & 0xFFFF_FFFF))
  }

  /** `mem_write_64` in place. */
  method PairWrite64(m: Machine, addr: bv64, value: bv64)
    modifies m`mem
    ensures m.mem == PairStore64(old(m.mem), addr, value)
  {
    MemWrite32(m, addr, Low32(value));
    MemWrite32(m, Add64(addr, 4), Low32((value >> 32) & 0xFFFF_FFFF));
  }

  // ---------------------------------------------------------------------
  // The values the handlers compute.
  // ---------------------------------------------------------------------

  /** `CURRENT_STATE.REGS[Rn] + imm` of ADDS immediate, `imm` moved up 12
      bits in 64 bits when `shamt == 1`. */
  function AddsImmResult(cur: CpuState, instr: bv32): bv64 {
    var dec := DecodeIFormat(instr);
    Add64(cur.regs[dec.rn], if dec.shamt == 1 then dec.imm << 12 else dec.imm)
  }

  /** `REGS[Rn] + extend_register(REGS[Rm], bits 15:13, bits 12:10)` of ADDS
      register. */
  function AddsRegResult(cur: CpuState, instr: bv32): bv64 {
    var dec := DecodeRFormat(instr);
    Add64(cur.regs[dec.rn], ExtendRegister(cur.regs[dec.rm], (instr >> 13) & 0x7, (instr >> 10) & 0x7))
  }

  /** `REGS[Rn] - imm` of SUBS immediate. */
  function SubsImmResult(cur: CpuState, instr: bv32): bv64 {
    var imm12 := ((instr >> 10) & 0xFFF) as bv64;
    Sub64(cur.regs[(instr >> 5) & 0x1F], if (instr >> 22) & 0x3 == 1 then imm12 << 12 else imm12)
  }

  /** `REGS[Rn] - extend_register(REGS[Rm], opt, imm3)` of SUBS register. */
  function SubsRegResult(cur: CpuState, instr: bv32): bv64 {
    Sub64(cur.regs[(instr >> 5) & 0x1F],
          ExtendRegister(cur.regs[(instr >> 16) & 0x1F], (instr >> 13) & 0x7, (instr >> 10) & 0x7))
  }

  /** The address of STUR and LDUR: `REGS[Rn] + sign_extend(imm9, 9)`, a
      signed offset in [-256, 256). */
  function DoubleAddress(cur: CpuState, instr: bv32): (a: bv64)
    ensures var dec := DecodeDFormat(instr);
      && (dec.imm < 0x100 ==> a == Add64(cur.regs[dec.rn], dec.imm))
      && (dec.imm >= 0x100 ==> a == Add64(cur.regs[dec.rn], dec.imm - 0x200))
  {
    var dec := DecodeDFormat(instr);
    Add64(cur.regs[dec.rn], SignExtend(dec.imm, 9))
  }

  /** The address of STURB and STURH: `REGS[Rn] + sign_extend(imm9, 64)`,
      kept in an `int64_t`, which leaves the offset unsigned. */
  function NarrowStoreAddress(cur: CpuState, instr: bv32): (a: bv64)
    ensures a == Add64(cur.regs[(instr >> 5) & 0x1F], ((instr >> 12) & 0x1FF) as bv64)
  {
    var imm9 := ((instr >> 12) & 0x1FF) as bv64;
    SignExtend64Identity(imm9);
    Add64(cur.regs[(instr >> 5) & 0x1F], SignExtend(imm9, 64))
  }

  /** The shift of `handle_shifts`: bit 22 chooses left (0) or right (1),
      bits 15:10 are the amount. */
  function ShiftsResult(cur: CpuState, instr: bv32): bv64 {
    var rn := cur.regs[(instr >> 5) & 0x1F];
    var imm6 := (instr >> 10) & 0x3F;
    if (instr >> 22) & 0x1 == 0 then rn << imm6 else rn >> imm6
  }

  // ---------------------------------------------------------------------
  // What each handler does to the globals.
  // ---------------------------------------------------------------------

  /** `if (!branch_taken) NEXT_STATE.PC += 4`, the last line of every
      handler that is not a branch. */
  function Advance(s: Sim): Sim {
    if s.branchTaken then s else s.(next := s.next.(pc := Add64(s.next.pc, 4)))
  }

  /** NEXT_STATE with register `d` set and Z and N taken from the value. */
  function SetRegWithFlags(c: CpuState, d: bv32, v: bv64): CpuState
    requires d < 32
  {
    WithFlags(Handlers.SetReg(c, d, v), v)
  }

  function HltStep(s: Sim, instr: bv32): Sim {
    Advance(s.(runBit := false))
  }

  function AddsImmStep(s: Sim, instr: bv32): Sim {
    Advance(s.(next := SetRegWithFlags(s.next, DecodeIFormat(instr).rd, AddsImmResult(s.current, instr))))
  }

  function AddsRegStep(s: Sim, instr: bv32): Sim {
    Advance(s.(next := SetRegWithFlags(s.next, DecodeRFormat(instr).rd, AddsRegResult(s.current, instr))))
  }

  function SubsImmStep(s: Sim, instr: bv32): Sim {
    var d := instr & 0x1F;
    var res := SubsImmResult(s.current, instr);
    Advance(s.(next := if d != 31 then SetRegWithFlags(s.next, d, res) else WithFlags(s.next, res)))
  }

  function SubsRegStep(s: Sim, instr: bv32): Sim {
    var d := instr & 0x1F;
    var res := SubsRegResult(s.current, instr);
    Advance(s.(next := if d != 31 then SetRegWithFlags(s.next, d, res) else WithFlags(s.next, res)))
  }

  function AndsStep(s: Sim, instr: bv32): Sim
    requires Handlers.AndsDefined(instr)
  {
    Advance(s.(next := SetRegWithFlags(s.next, instr & 0x1F, Handlers.AndsResult(s.current, instr))))
  }

  function EorStep(s: Sim, instr: bv32): Sim {
    Advance(s.(next := SetRegWithFlags(s.next, instr & 0x1F, Handlers.EorResult(s.current, instr))))
  }

  function OrrStep(s: Sim, instr: bv32): Sim {
    Advance(s.(next := Handlers.SetReg(s.next, instr & 0x1F, Handlers.OrrResult(s.current, instr))))
  }

  function SturStep(s: Sim, instr: bv32): Sim {
    var dec := DecodeDFormat(instr);
    Advance(s.(mem := PairStore64(s.mem, DoubleAddress(s.current, instr), s.current.regs[dec.rt])))
  }

  function LdurStep(s: Sim, instr: bv32): Sim {
    var dec := DecodeDFormat(instr);
    Advance(s.(next := Handlers.SetReg(s.next, dec.rt, PairRead64(s.mem, DoubleAddress(s.current, instr)))))
  }

  function BStep(s: Sim, instr: bv32): Sim {
    s.(next := s.next.(pc := Add64(s.current.pc, DecodeBFormat(instr).imm)), branchTaken := true)
  }

  /** B.cond asks `check_condition`, which is not part of this model, and
      is therefore given as the parameter `check`. An untaken B.cond moves
      NEXT_STATE.PC on by four whatever the latch says. */
  function BCondStep(s: Sim, instr: bv32, check: bv32 -> bool): Sim {
    var dec := DecodeCbFormat(instr);
    if check(dec.cond) then s.(next := s.next.(pc := Add64(s.current.pc, dec.imm)), branchTaken := true)
    else s.(next := s.next.(pc := Add64(s.next.pc, 4)))
  }

  function MovzStep(s: Sim, instr: bv32): Sim {
    var dec := DecodeIwFormat(instr);
    Advance(s.(next := Handlers.SetReg(s.next, dec.rd, dec.imm)))
  }

  function BrStep(s: Sim, instr: bv32): Sim {
    s.(current := s.current.(pc := s.current.regs[(instr >> 5) & 0x1F]), branchTaken := true)
  }

  function SturbStep(s: Sim, instr: bv32): Sim {
    Advance(s.(mem := StoreByte(s.mem, NarrowStoreAddress(s.current, instr), Low8(s.current.regs[instr & 0x1F]))))
  }

  function SturhStep(s: Sim, instr: bv32): Sim {
    Advance(s.(mem := StoreHalf(s.mem, NarrowStoreAddress(s.current, instr), Low16(s.current.regs[instr & 0x1F]))))
  }

  /** LDURB and LDURH hold the offset in an `int32_t` around
      `sign_extend(imm9, 64)`, exactly as src/handlers.c does, so they share
      its address function. */
  function LdurbStep(s: Sim, instr: bv32): Sim {
    var addr := Handlers.MemAddress(s.current, instr);
    Advance(s.(next := Handlers.SetReg(s.next, instr & 0x1F, Handlers.LoadByte(s.mem, addr))))
  }

  function LdurhStep(s: Sim, instr: bv32): Sim {
    var addr := Handlers.MemAddress(s.current, instr);
    Advance(s.(next := Handlers.SetReg(s.next, instr & 0x1F, Handlers.LoadHalf(s.mem, addr))))
  }

  function AddImmStep(s: Sim, instr: bv32): Sim {
    Advance(s.(next := Handlers.SetReg(s.next, instr & 0x1F, Handlers.AddImmResult(s.current, instr))))
  }

  function AddRegStep(s: Sim, instr: bv32): Sim {
    Advance(s.(next := Handlers.SetReg(s.next, instr & 0x1F, Handlers.AddRegResult(s.current, instr))))
  }

  function MulStep(s: Sim, instr: bv32): Sim {
    Advance(s.(next := Handlers.SetReg(s.next, instr & 0x1F, Handlers.MulResult(s.current, instr))))
  }

  /** CBZ and CBNZ use the signed offset `(int64_t)sign_extend(imm19, 19) << 2`
      of src/handlers.c's B.cond; an untaken branch sets NEXT_STATE.PC to
      `CURRENT_STATE.PC + 4`. */
  function CbzStep(s: Sim, instr: bv32): Sim {
    if s.current.regs[instr & 0x1F] == 0 then
      s.(next := s.next.(pc := Add64(s.current.pc, Handlers.CondBranchOffset(instr))), branchTaken := true)
    else s.(next := s.next.(pc := Add64(s.current.pc, 4)))
  }

  function CbnzStep(s: Sim, instr: bv32): Sim {
    if s.current.regs[instr & 0x1F] != 0 then
      s.(next := s.next.(pc := Add64(s.current.pc, Handlers.CondBranchOffset(instr))), branchTaken := true)
    else s.(next := s.next.(pc := Add64(s.current.pc, 4)))
  }

  function ShiftsStep(s: Sim, instr: bv32): Sim {
    Advance(s.(next := Handlers.SetReg(s.next, instr & 0x1F, ShiftsResult(s.current, instr))))
  }

  // ---------------------------------------------------------------------
  // The handlers as the table stores them.
  // ---------------------------------------------------------------------

  datatype Handler =
    | Hlt | AddsImm | AddsReg | SubsImm | SubsReg | Ands | Eor | Orr
    | B | Br | BCond | Cbz | Cbnz | Ldur | Stur | Movz | Mul | Shifts
    | Sturb | Sturh | Ldurb | Ldurh | AddReg | AddImm

  /** The only handler of src/sim1.c that C leaves undefined for some words
      is ANDS, with ROR by 0. */
  predicate Defined(h: Handler, instr: bv32) {
    h == Ands ==> Handlers.AndsDefined(instr)
  }

  /** Calling handler `h` on `instr`, with `check` standing for
      `check_condition`. */
  function Execute(h: Handler, s: Sim, instr: bv32, check: bv32 -> bool): Sim
    requires Defined(h, instr)
  {
    match h
    case Hlt => HltStep(s, instr)
    case AddsImm => AddsImmStep(s, instr)
    case AddsReg => AddsRegStep(s, instr)
    case SubsImm => SubsImmStep(s, instr)
    case SubsReg => SubsRegStep(s, instr)
    case Ands => AndsStep(s, instr)
    case Eor => EorStep(s, instr)
    case Orr => OrrStep(s, instr)
    case B => BStep(s, instr)
    case Br => BrStep(s, instr)
    case BCond => BCondStep(s, instr, check)
    case Cbz => CbzStep(s, instr)
    case Cbnz => CbnzStep(s, instr)
    case Ldur => LdurStep(s, instr)
    case Stur => SturStep(s, instr)
    case Movz => MovzStep(s, instr)
    case Mul => MulStep(s, instr)
    case Shifts => ShiftsStep(s, instr)
    case Sturb => SturbStep(s, instr)
    case Sturh => SturhStep(s, instr)
    case Ldurb => LdurbStep(s, instr)
    case Ldurh => LdurhStep(s, instr)
    case AddReg => AddRegStep(s, instr)
    case AddImm => AddImmStep(s, instr)
  }

  // ---------------------------------------------------------------------
  // The handlers in place.
  // ---------------------------------------------------------------------

  /** `if (!branch_taken) NEXT_STATE.PC += 4`. */
  method AdvancePc(m: Machine)
    modifies m
    ensures m.State() == Advance(old(m.State()))
  {
    if !m.branchTaken {
      m.next := m.next.(pc := Add64(m.next.pc, 4));
    }
  }

  /** `NEXT_STATE.REGS[d] = v` together with `update_flags(v)`; the two
      touch different fields, so their order does not matter. */
  method WriteWithFlags(m: Machine, d: bv32, v: bv64)
    requires d < 32
    modifies m
    ensures m.State() == old(m.State()).(next := SetRegWithFlags(old(m.next), d, v))
  {
    m.next := Handlers.SetReg(m.next, d, v);
    UpdateFlags(m, v);
  }

  method HandleHlt(m: Machine, instr: bv32)
    modifies m
    ensures m.State() == HltStep(old(m.State()), instr)
  {
    m.runBit := false;
    AdvancePc(m);
  }

  method HandleAddsImm(m: Machine, instr: bv32)
    modifies m
    ensures m.State() == AddsImmStep(old(m.State()), instr)
  {
    var dec := DecodeIFormat(instr);
    WriteWithFlags(m, dec.rd, AddsImmResult(m.current, instr));
    AdvancePc(m);
  }

  method HandleAddsReg(m: Machine, instr: bv32)
    modifies m
    ensures m.State() == AddsRegStep(old(m.State()), instr)
  {
    var dec := DecodeRFormat(instr);
    WriteWithFlags(m, dec.rd, AddsRegResult(m.current, instr));
    AdvancePc(m);
  }

  method HandleSubsImm(m: Machine, instr: bv32)
    modifies m
    ensures m.State() == SubsImmStep(old(m.State()), instr)
  {
    var rd := instr & 0x1F;
    var res := SubsImmResult(m.current, instr);
    if rd != 31 {
      WriteWithFlags(m, rd, res);
    } else {
      UpdateFlags(m, res);
    }
    AdvancePc(m);
  }

  method HandleSubsReg(m: Machine, instr: bv32)
    modifies m
    ensures m.State() == SubsRegStep(old(m.State()), instr)
  {
    var rd := instr & 0x1F;
    var res := SubsRegResult(m.current, instr);
    if rd != 31 {
      WriteWithFlags(m, rd, res);
    } else {
      UpdateFlags(m, res);
    }
    AdvancePc(m);
  }

  method HandleAnds(m: Machine, instr: bv32)
    requires Handlers.AndsDefined(instr)
    modifies m
    ensures m.State() == AndsStep(old(m.State()), instr)
  {
    var res := Handlers.AndsResult(m.current, instr);
    WriteWithFlags(m, instr & 0x1F, res);
    AdvancePc(m);
  }

  method HandleEor(m: Machine, instr: bv32)
    modifies m
    ensures m.State() == EorStep(old(m.State()), instr)
  {
    var res := Handlers.EorResult(m.current, instr);
    WriteWithFlags(m, instr & 0x1F, res);
    AdvancePc(m);
  }

  method HandleOrr(m: Machine, instr: bv32)
    modifies m
    ensures m.State() == OrrStep(old(m.State()), instr)
  {
    m.next := Handlers.SetReg(m.next, instr & 0x1F, Handlers.OrrResult(m.current, instr));
    AdvancePc(m);
  }

  method HandleStur(m: Machine, instr: bv32)
    modifies m
    ensures m.State() == SturStep(old(m.State()), instr)
  {
    var dec := DecodeDFormat(instr);
    var addr := DoubleAddress(m.current, instr);
    PairWrite64(m, addr, m.current.regs[dec.rt]);
    AdvancePc(m);
  }

  method HandleLdur(m: Machine, instr: bv32)
    modifies m
    ensures m.State() == LdurStep(old(m.State()), instr)
  {
    var dec := DecodeDFormat(instr);
    var addr := DoubleAddress(m.current, instr);
    m.next := Handlers.SetReg(m.next, dec.rt, PairRead64(m.mem, addr));
    AdvancePc(m);
  }

  method HandleB(m: Machine, instr: bv32)
    modifies m
    ensures m.State() == BStep(old(m.State()), instr)
  {
    var dec := DecodeBFormat(instr);
    m.next := m.next.(pc := Add64(m.current.pc, dec.imm));
    m.branchTaken := true;
  }

  method HandleBCond(m: Machine, instr: bv32, check: bv32 -> bool)
    modifies m
    ensures m.State() == BCondStep(old(m.State()), instr, check)
  {
    var dec := DecodeCbFormat(instr);
    var takeBranch := check(dec.cond);
    if takeBranch {
      m.next := m.next.(pc := Add64(m.current.pc, dec.imm));
      m.branchTaken := true;
    } else {
      m.next := m.next.(pc := Add64(m.next.pc, 4));
    }
  }

  method HandleMovz(m: Machine, instr: bv32)
    modifies m
    ensures m.State() == MovzStep(old(m.State()), instr)
  {
    var dec := DecodeIwFormat(instr);
    m.next := Handlers.SetReg(m.next, dec.rd, dec.imm);
    AdvancePc(m);
  }

  method HandleBr(m: Machine, instr: bv32)
    modifies m
    ensures m.State() == BrStep(old(m.State()), instr)
  {
    var rn := (instr >> 5) & 0x1F;
    m.current := m.current.(pc := m.current.regs[rn]);
    m.branchTaken := true;
  }

  method HandleSturb(m: Machine, instr: bv32)
    modifies m
    ensures m.State() == SturbStep(old(m.State()), instr)
  {
    var addr := NarrowStoreAddress(m.current, instr);
    MemWrite8(m, addr, Low8(m.current.regs[instr & 0x1F]));
    AdvancePc(m);
  }

  method HandleSturh(m: Machine, instr: bv32)
    modifies m
    ensures m.State() == SturhStep(old(m.State()), instr)
  {
    var addr := NarrowStoreAddress(m.current, instr);
    MemWrite16(m, addr, Low16(m.current.regs[instr & 0x1F]));
    AdvancePc(m);
  }

  method HandleLdurb(m: Machine, instr: bv32)
    modifies m
    ensures m.State() == LdurbStep(old(m.State()), instr)
  {
    var addr := Handlers.MemAddress(m.current, instr);
    m.next := Handlers.SetReg(m.next, instr & 0x1F, Handlers.LoadByte(m.mem, addr));
    AdvancePc(m);
  }

  method HandleLdurh(m: Machine, instr: bv32)
    modifies m
    ensures m.State() == LdurhStep(old(m.State()), instr)
  {
    var addr := Handlers.MemAddress(m.current, instr);
    m.next := Handlers.SetReg(m.next, instr & 0x1F, Handlers.LoadHalf(m.mem, addr));
    AdvancePc(m);
  }

  method HandleAddImm(m: Machine, instr: bv32)
    modifies m
    ensures m.State() == AddImmStep(old(m.State()), instr)
  {
    m.next := Handlers.SetReg(m.next, instr & 0x1F, Handlers.AddImmResult(m.current, instr));
    AdvancePc(m);
  }

  method HandleAddReg(m: Machine, instr: bv32)
    modifies m
    ensures m.State() == AddRegStep(old(m.State()), instr)
  {
    m.next := Handlers.SetReg(m.next, instr & 0x1F, Handlers.AddRegResult(m.current, instr));
    AdvancePc(m);
  }

  method HandleMul(m: Machine, instr: bv32)
    modifies m
    ensures m.State() == MulStep(old(m.State()), instr)
  {
    m.next := Handlers.SetReg(m.next, instr & 0x1F, Handlers.MulResult(m.current, instr));
    AdvancePc(m);
  }

  method HandleCbz(m: Machine, instr: bv32)
    modifies m
    ensures m.State() == CbzStep(old(m.State()), instr)
  {
    var offset := Handlers.CondBranchOffset(instr);
    if m.current.regs[instr & 0x1F] == 0 {
      m.next := m.next.(pc := Add64(m.current.pc, offset));
      m.branchTaken := true;
    } else {
      m.next := m.next.(pc := Add64(m.current.pc, 4));
    }
  }

  method HandleCbnz(m: Machine, instr: bv32)
    modifies m
    ensures m.State() == CbnzStep(old(m.State()), instr)
  {
    var offset := Handlers.CondBranchOffset(instr);
    if m.current.regs[instr & 0x1F] != 0 {
      m.next := m.next.(pc := Add64(m.current.pc, offset));
      m.branchTaken := true;
    } else {
      m.next := m.next.(pc := Add64(m.current.pc, 4));
    }
  }

  method HandleShifts(m: Machine, instr: bv32)
    modifies m
    ensures m.State() == ShiftsStep(old(m.State()), instr)
  {
    m.next := Handlers.SetReg(m.next, instr & 0x1F, ShiftsResult(m.current, instr));
    AdvancePc(m);
  }

  /** Calling the handler the table returned: `handler(instr)`. */
  method Dispatch(m: Machine, h: Handler, instr: bv32, check: bv32 -> bool)
    requires Defined(h, instr)
    modifies m
    ensures m.State() == Execute(h, old(m.State()), instr, check)
  {
    match h
    case Hlt => HandleHlt(m, instr);
    case AddsImm => HandleAddsImm(m, instr);
    case AddsReg => HandleAddsReg(m, instr);
    case SubsImm => HandleSubsImm(m, instr);
    case SubsReg => HandleSubsReg(m, instr);
    case Ands => HandleAnds(m, instr);
    case Eor => HandleEor(m, instr);
    case Orr => HandleOrr(m, instr);
    case B => HandleB(m, instr);
    case Br => HandleBr(m, instr);
    case BCond => HandleBCond(m, instr, check);
    case Cbz => HandleCbz(m, instr);
    case Cbnz => HandleCbnz(m, instr);
    case Ldur => HandleLdur(m, instr);
    case Stur => HandleStur(m, instr);
    case Movz => HandleMovz(m, instr);
    case Mul => HandleMul(m, instr);
    case Shifts => HandleShifts(m, instr);
    case Sturb => HandleSturb(m, instr);
    case Sturh => HandleSturh(m, instr);
    case Ldurb => HandleLdurb(m, instr);
    case Ldurh => HandleLdurh(m, instr);
    case AddReg => HandleAddReg(m, instr);
    case AddImm => HandleAddImm(m, instr);
  }
}
