/** The single if/else chain of the first draft (TP1-ARM/sim.c): the word is
    compared field by field, bits 31:24 first, then bits 31:26, bits 25:10
    and bits 31:21, and the first case that matches runs. Its `execute_*`
    helpers and its case bodies are shared with the four-switch draft
    (module SimSwitch). */
module SimChain {
  import opened Bits
  import opened Shell
  import opened Decode
  import Handlers
  import Sim1Handlers

  // ---------------------------------------------------------------------
  // The `execute_*` helpers. Each reads CURRENT_STATE, sends the flags to
  // NEXT_STATE and writes its result to CURRENT_STATE.REGS[d].
  // ---------------------------------------------------------------------

  /** The value `execute_ADDS_immediate` adds: `imm12`, or `imm12 << 12`
      (a 32-bit shift that loses nothing for a 12-bit field) when `shift`
      is 1. */
  function AddsImmediateResult(cur: CpuState, n: bv32, imm12: bv32, shift: bv32): (r: bv64)
    requires n < 32 && imm12 < 0x1000
    ensures r == Add64(cur.regs[n], if shift == 1 then (imm12 as bv64) << 12 else imm12 as bv64)
  {
    Add64(cur.regs[n], if shift == 1 then (imm12 << 12) as bv64 else imm12 as bv64)
  }

  /** `REGS[n] + extend_register(REGS[m], option, imm3)` of `execute_ADDS_extended`. */
  function AddsExtendedResult(cur: CpuState, n: bv32, m: bv32, option: bv32, imm3: bv32): bv64
    requires n < 32 && m < 32 && imm3 < 64
  {
    Add64(cur.regs[n], ExtendRegister(cur.regs[m], option, imm3))
  }

  /** The immediate `execute_SUBS_immediate` subtracts: `imm12` for shift 0,
      `imm12 << 12` (a 32-bit shift) for shift 1 and 0 for a reserved shift. */
  function SubsImmediateOperand(imm12: bv32, shift: bv32): (imm: bv64)
    ensures shift >= 2 ==> imm == 0
    ensures imm12 < 0x1000 && shift == 1 ==> imm == (imm12 as bv64) << 12
  {
    if shift == 0 then imm12 as bv64
    else if shift == 1 then (imm12 << 12) as bv64
    else 0
  }

  /** `operand1 + (~operand2) + 1`, the two's-complement subtraction of both
      SUBS helpers. */
  function ComplementSum(op1: bv64, op2: bv64): bv64 {
    op1 + !op2 + 1
  }

  /** Adding the complement and one subtracts, modulo 2^64. */
  lemma ComplementSumSubtracts(op1: bv64, op2: bv64)
    ensures ComplementSum(op1, op2) == Sub64(op1, op2)
  {
    calc {
      ComplementSum(op1, op2);
      op1 + !op2 + 1;
      { TwosComplement(op1, op2); }
      op1 - op2;
      Sub64(op1, op2);
    }
  }

  lemma TwosComplement(x: bv64, y: bv64)
    ensures x + !y + 1 == x - y
  {
  }

  /** With a reserved shift `execute_SUBS_immediate` subtracts nothing. */
  lemma SubsReservedShiftSubtractsNothing(op1: bv64, imm12: bv32, shift: bv32)
    requires shift >= 2
    ensures ComplementSum(op1, SubsImmediateOperand(imm12, shift)) == op1
  {
    calc {
      ComplementSum(op1, SubsImmediateOperand(imm12, shift));
      ComplementSum(op1, 0);
      { TwosComplement(op1, 0); }
      op1;
    }
  }

  /** `update_flags(result)` followed by `CURRENT_STATE.REGS[d] = result`. */
  function FlagAndWrite(s: Sim, d: bv32, result: bv64): Sim
    requires d < 32
  {
    s.(next := WithFlags(s.next, result), current := Handlers.SetReg(s.current, d, result))
  }

  /** `update_flags(result); CURRENT_STATE.REGS[d] = result;`. */
  method FlagAndWriteCurrent(m: Machine, d: bv32, result: bv64)
    requires d < 32
    modifies m
    ensures m.State() == FlagAndWrite(old(m.State()), d, result)
  {
    UpdateFlags(m, result);
    m.current := m.current.(regs := m.current.regs[d := result]);
  }

  method ExecuteAddsImmediate(m: Machine, d: bv32, n: bv32, imm12: bv32, shift: bv32)
    requires d < 32 && n < 32 && imm12 < 0x1000
    modifies m
    ensures m.State() == FlagAndWrite(old(m.State()), d, AddsImmediateResult(old(m.current), n, imm12, shift))
  {
    FlagAndWriteCurrent(m, d, AddsImmediateResult(m.current, n, imm12, shift));
  }

  method ExecuteAddsExtended(m: Machine, d: bv32, n: bv32, rm: bv32, option: bv32, imm3: bv32)
    requires d < 32 && n < 32 && rm < 32 && imm3 < 64
    modifies m
    ensures m.State() == FlagAndWrite(old(m.State()), d, AddsExtendedResult(old(m.current), n, rm, option, imm3))
  {
    FlagAndWriteCurrent(m, d, AddsExtendedResult(m.current, n, rm, option, imm3));
  }

  method ExecuteSubsImmediate(m: Machine, d: bv32, n: bv32, imm12: bv32, shift: bv32)
    requires d < 32 && n < 32
    modifies m
    ensures m.State() == FlagAndWrite(old(m.State()), d, ComplementSum(old(m.current).regs[n], SubsImmediateOperand(imm12, shift)))
  {
    var imm: bv64;
    if shift == 0 {
      imm := imm12 as bv64;
    } else if shift == 1 {
      imm := (imm12 << 12) as bv64;
    } else {
      imm := 0;
    }
    FlagAndWriteCurrent(m, d, ComplementSum(m.current.regs[n], imm));
  }

  method ExecuteSubsExtended(m: Machine, d: bv32, n: bv32, rm: bv32, option: bv32, imm3: bv32)
    requires d < 32 && n < 32 && rm < 32 && imm3 < 64
    modifies m
    ensures m.State() == FlagAndWrite(old(m.State()), d, ComplementSum(old(m.current).regs[n], ExtendRegister(old(m.current).regs[rm], option, imm3)))
  {
    var operand2 := ExtendRegister(m.current.regs[rm], option, imm3);
    FlagAndWriteCurrent(m, d, ComplementSum(m.current.regs[n], operand2));
  }

  // ---------------------------------------------------------------------
  // The fields the drafts compare and the case bodies they run.
  // ---------------------------------------------------------------------

  function Opcode8(inst: bv32): bv32 { (inst >> 24) & 0xFF }
  function Opcode6(inst: bv32): bv32 { (inst >> 26) & 0x3F }
  function Opcode16(inst: bv32): bv32 { (inst >> 10) & 0xFFFF }
  function Opcode11(inst: bv32): bv32 { (inst >> 21) & 0x7FF }

  /** `(Rn == 31) ? sp : CURRENT_STATE.REGS[Rn]`. The if-chain passes
      `REGS[31]` as `sp`, which makes the choice vacuous; the four-switch
      draft passes the shell's stack pointer. */
  function Operand1(cur: CpuState, n: bv32, sp: bv64): bv64
    requires n < 32
  {
    if n == 31 then sp else cur.regs[n]
  }

  /** The flags of a subtraction, and its result in CURRENT_STATE.REGS[d]
      unless `d` is 31. */
  function FlagAndWriteUnless31(s: Sim, d: bv32, result: bv64): Sim
    requires d < 32
  {
    s.(next := WithFlags(s.next, result),
       current := if d != 31 then Handlers.SetReg(s.current, d, result) else s.current)
  }

  /** The second operand of the inline SUBS immediate: `imm12` or `imm12 << 12`
      in 64 bits. A shift of 2 or 3 leaves it unset. */
  function SubsImmOperand2(inst: bv32): bv64
    requires (inst >> 22) & 0x3 < 2
  {
    var imm12 := ((inst >> 10) & 0xFFF) as bv64;
    if (inst >> 22) & 0x3 == 0 then imm12 else imm12 << 12
  }

  function SubsImmValue(cur: CpuState, inst: bv32, sp: bv64): bv64
    requires (inst >> 22) & 0x3 < 2
  {
    Sub64(Operand1(cur, (inst >> 5) & 0x1F, sp), SubsImmOperand2(inst))
  }

  function SubsExtValue(cur: CpuState, inst: bv32, sp: bv64): bv64 {
    var f := DecodeRGroup(inst);
    Sub64(Operand1(cur, f.n, sp), ExtendRegister(cur.regs[f.m], f.opt, f.imm3))
  }

  function AddsImmCase(s: Sim, inst: bv32): Sim {
    FlagAndWrite(s, inst & 0x1F, AddsImmediateResult(s.current, (inst >> 5) & 0x1F, (inst >> 10) & 0xFFF, (inst >> 22) & 0x1))
  }

  function AddsExtCase(s: Sim, inst: bv32): Sim {
    var f := DecodeRGroup(inst);
    FlagAndWrite(s, f.d, AddsExtendedResult(s.current, f.n, f.m, f.opt, f.imm3))
  }

  function SubsImmCase(s: Sim, inst: bv32, sp: bv64): Sim
    requires (inst >> 22) & 0x3 < 2
  {
    FlagAndWriteUnless31(s, inst & 0x1F, SubsImmValue(s.current, inst, sp))
  }

  function SubsExtCase(s: Sim, inst: bv32, sp: bv64): Sim {
    FlagAndWriteUnless31(s, inst & 0x1F, SubsExtValue(s.current, inst, sp))
  }

  /** EOR writes its result to CURRENT_STATE and its flags to NEXT_STATE. */
  function EorCase(s: Sim, inst: bv32): Sim {
    FlagAndWrite(s, inst & 0x1F, Handlers.EorResult(s.current, inst))
  }

  /** B moves CURRENT_STATE.PC by the branch offset. */
  function BCase(s: Sim, inst: bv32): Sim {
    s.(current := s.current.(pc := Add64(s.current.pc, Handlers.BranchOffset(inst))))
  }

  /** BR copies register `Rn` into CURRENT_STATE.PC. */
  function BrCase(s: Sim, inst: bv32): Sim {
    s.(current := s.current.(pc := s.current.regs[(inst >> 5) & 0x1F]))
  }

  /** STUR: the 64-bit register `Rt` as two words at `addr` and `addr + 4`. */
  function SturCase(s: Sim, inst: bv32): Sim {
    var addr := Handlers.MemAddress(s.current, inst);
    s.(mem := Sim1Handlers.PairStore64(s.mem, addr, s.current.regs[inst & 0x1F]))
  }

  /** STURB and STURH keep the offset in an `int64_t`. */
  function SturbCase(s: Sim, inst: bv32): Sim {
    var addr := Sim1Handlers.NarrowStoreAddress(s.current, inst);
    s.(mem := StoreByte(s.mem, addr, Low8(s.current.regs[inst & 0x1F])))
  }

  function SturhCase(s: Sim, inst: bv32): Sim {
    var addr := Sim1Handlers.NarrowStoreAddress(s.current, inst);
    s.(mem := StoreHalf(s.mem, addr, Low16(s.current.regs[inst & 0x1F])))
  }

  /** The loads write CURRENT_STATE.REGS[Rt]. */
  function LdurCase(s: Sim, inst: bv32): Sim {
    var addr := Handlers.MemAddress(s.current, inst);
    s.(current := Handlers.SetReg(s.current, inst & 0x1F, Sim1Handlers.PairRead64(s.mem, addr)))
  }

  function LdurbCase(s: Sim, inst: bv32): Sim {
    var addr := Handlers.MemAddress(s.current, inst);
    s.(current := Handlers.SetReg(s.current, inst & 0x1F, Handlers.LoadByte(s.mem, addr)))
  }

  function LdurhCase(s: Sim, inst: bv32): Sim {
    var addr := Handlers.MemAddress(s.current, inst);
    s.(current := Handlers.SetReg(s.current, inst & 0x1F, Handlers.LoadHalf(s.mem, addr)))
  }

  // ---------------------------------------------------------------------
  // The chain.
  // ---------------------------------------------------------------------

  datatype Case =
    | Hlt | AddsImm | AddsExt | SubsImm | SubsExt | Ands | Eor | Orr
    | B | Br | Stur | Sturb | Sturh | Ldur | Ldurb | Ldurh | NotImplemented

  /** The case the chain picks: the first test, in source order, that holds. */
  function Select(inst: bv32): Case {
    var op8 := Opcode8(inst);
    if op8 == 0xD4 then Hlt
    else if op8 == 0xB1 then AddsImm
    else if op8 == 0xAB then AddsExt
    else if op8 == 0xF1 then SubsImm
    else if op8 == 0xEB then SubsExt
    else if op8 == 0xEA then Ands
    else if op8 == 0xCA then Eor
    else if op8 == 0xAA then Orr
    else if Opcode6(inst) == 0x14 then B
    else if Opcode16(inst) == 0xD61F then Br
    else if Opcode11(inst) == 0x7C0 then Stur
    else if Opcode11(inst) == 0x1C0 then Sturb
    else if Opcode11(inst) == 0x3C0 then Sturh
    else if Opcode11(inst) == 0x7C2 then Ldur
    else if Opcode11(inst) == 0x1C2 then Ldurb
    else if Opcode11(inst) == 0x3C2 then Ldurh
    else NotImplemented
  }

  /** The case stays inside what C defines: SUBS immediate with a reserved
      shift would read an uninitialised `operand2`, and ANDS with ROR by 0
      would shift by 64. */
  predicate CaseDefined(c: Case, inst: bv32) {
    match c
    case SubsImm => (inst >> 22) & 0x3 < 2
    case Ands => Handlers.AndsDefined(inst)
    case _ => true
  }

  /** Running case `c` on `inst`. HLT, ANDS and ORR are the modular engine's
      handlers word for word. */
  function Run(c: Case, s: Sim, inst: bv32): Sim
    requires CaseDefined(c, inst)
  {
    match c
    case Hlt => Handlers.HltStep(s, inst)
    case AddsImm => AddsImmCase(s, inst)
    case AddsExt => AddsExtCase(s, inst)
    case SubsImm => SubsImmCase(s, inst, s.current.regs[31])
    case SubsExt => SubsExtCase(s, inst, s.current.regs[31])
    case Ands => Handlers.AndsStep(s, inst)
    case Eor => EorCase(s, inst)
    case Orr => Handlers.OrrStep(s, inst)
    case B => BCase(s, inst)
    case Br => BrCase(s, inst)
    case Stur => SturCase(s, inst)
    case Sturb => SturbCase(s, inst)
    case Sturh => SturhCase(s, inst)
    case Ldur => LdurCase(s, inst)
    case Ldurb => LdurbCase(s, inst)
    case Ldurh => LdurhCase(s, inst)
    case NotImplemented => s
  }

  /** `mem_read_32(CURRENT_STATE.PC)`. */
  function Fetch(s: Sim): bv32 {
    MemRead32(s.mem, s.current.pc)
  }

  /** `NEXT_STATE.PC = CURRENT_STATE.PC + 4`, the first thing both drafts do. */
  function Advanced(s: Sim): Sim {
    s.(next := s.next.(pc := Add64(s.current.pc, 4)))
  }

  predicate ProcessDefined(s: Sim) {
    CaseDefined(Select(Fetch(s)), Fetch(s))
  }

  /** `process_instruction`: the default PC, then the one case the chain picks. */
  function Process(s: Sim): Sim
    requires ProcessDefined(s)
  {
    Run(Select(Fetch(s)), Advanced(s), Fetch(s))
  }

  /** `process_instruction` in place. It returns the case it ran, which the
      C code records in `instruction_handled`. */
  method ProcessInstruction(m: Machine) returns (c: Case)
    requires ProcessDefined(m.State())
    modifies m
    ensures c == Select(Fetch(old(m.State())))
    ensures m.State() == Process(old(m.State()))
  {
    var inst := MemRead32(m.mem, m.current.pc);
    m.next := m.next.(pc := Add64(m.current.pc, 4));
    c := Select(inst);
    RunCase(m, c, inst);
  }

  /** The body of the case the chain picked. */
  method RunCase(m: Machine, c: Case, inst: bv32)
    requires CaseDefined(c, inst)
    modifies m
    ensures m.State() == Run(c, old(m.State()), inst)
  {
    if c.Hlt? || c.AddsImm? || c.AddsExt? || c.SubsImm? || c.SubsExt? || c.Ands? || c.Eor? || c.Orr? {
      RunDataCase(m, c, inst);
    } else {
      RunControlOrMemoryCase(m, c, inst);
    }
  }

  /** The cases keyed by bits 31:24. */
  method RunDataCase(m: Machine, c: Case, inst: bv32)
    requires c.Hlt? || c.AddsImm? || c.AddsExt? || c.SubsImm? || c.SubsExt? || c.Ands? || c.Eor? || c.Orr?
    requires CaseDefined(c, inst)
    modifies m
    ensures m.State() == Run(c, old(m.State()), inst)
  {
    var rd := inst & 0x1F;
    var rn := (inst >> 5) & 0x1F;
    match c
    case Hlt =>
      m.runBit := false;
    case AddsImm =>
      ExecuteAddsImmediate(m, rd, rn, (inst >> 10) & 0xFFF, (inst >> 22) & 0x1);
    case AddsExt =>
      var f := DecodeRGroup(inst);
      ExecuteAddsExtended(m, f.d, f.n, f.m, f.opt, f.imm3);
    case SubsImm =>
      FlagAndWriteUnless31Current(m, rd, SubsImmValue(m.current, inst, m.current.regs[31]));
    case SubsExt =>
      FlagAndWriteUnless31Current(m, rd, SubsExtValue(m.current, inst, m.current.regs[31]));
    case Ands =>
      Handlers.HandleAnds(m, inst);
    case Eor =>
      FlagAndWriteCurrent(m, rd, Handlers.EorResult(m.current, inst));
    case Orr =>
      Handlers.HandleOrr(m, inst);
  }

  /** The branch cases and the cases keyed by bits 31:21. */
  method RunControlOrMemoryCase(m: Machine, c: Case, inst: bv32)
    requires !(c.Hlt? || c.AddsImm? || c.AddsExt? || c.SubsImm? || c.SubsExt? || c.Ands? || c.Eor? || c.Orr?)
    modifies m
    ensures m.State() == Run(c, old(m.State()), inst)
  {
    match c
    case B =>
      m.current := m.current.(pc := Add64(m.current.pc, Handlers.BranchOffset(inst)));
    case Br =>
      m.current := m.current.(pc := m.current.regs[(inst >> 5) & 0x1F]);
    case Stur => RunStur(m, inst);
    case Sturb => RunSturb(m, inst);
    case Sturh => RunSturh(m, inst);
    case Ldur => RunLdur(m, inst);
    case Ldurb => RunLdurb(m, inst);
    case Ldurh => RunLdurh(m, inst);
    case NotImplemented =>
  }

  method RunStur(m: Machine, inst: bv32)
    modifies m
    ensures m.State() == SturCase(old(m.State()), inst)
  {
    Sim1Handlers.PairWrite64(m, Handlers.MemAddress(m.current, inst), m.current.regs[inst & 0x1F]);
  }

  method RunSturb(m: Machine, inst: bv32)
    modifies m
    ensures m.State() == SturbCase(old(m.State()), inst)
  {
    MemWrite8(m, Sim1Handlers.NarrowStoreAddress(m.current, inst), Low8(m.current.regs[inst & 0x1F]));
  }

  method RunSturh(m: Machine, inst: bv32)
    modifies m
    ensures m.State() == SturhCase(old(m.State()), inst)
  {
    MemWrite16(m, Sim1Handlers.NarrowStoreAddress(m.current, inst), Low16(m.current.regs[inst & 0x1F]));
  }

  method RunLdur(m: Machine, inst: bv32)
    modifies m
    ensures m.State() == LdurCase(old(m.State()), inst)
  {
    SetCurrentReg(m, inst & 0x1F, Sim1Handlers.PairRead64(m.mem, Handlers.MemAddress(m.current, inst)));
  }

  method RunLdurb(m: Machine, inst: bv32)
    modifies m
    ensures m.State() == LdurbCase(old(m.State()), inst)
  {
    SetCurrentReg(m, inst & 0x1F, Handlers.LoadByte(m.mem, Handlers.MemAddress(m.current, inst)));
  }

  method RunLdurh(m: Machine, inst: bv32)
    modifies m
    ensures m.State() == LdurhCase(old(m.State()), inst)
  {
    SetCurrentReg(m, inst & 0x1F, Handlers.LoadHalf(m.mem, Handlers.MemAddress(m.current, inst)));
  }

  /** `update_flags(result); if (Rd != 31) CURRENT_STATE.REGS[Rd] = result;`. */
  method FlagAndWriteUnless31Current(m: Machine, d: bv32, result: bv64)
    requires d < 32
    modifies m
    ensures m.State() == FlagAndWriteUnless31(old(m.State()), d, result)
  {
    UpdateFlags(m, result);
    if d != 31 {
      m.current := m.current.(regs := m.current.regs[d := result]);
    }
  }

  /** `CURRENT_STATE.REGS[Rt] = value`. */
  method SetCurrentReg(m: Machine, d: bv32, value: bv64)
    requires d < 32
    modifies m
    ensures m.State() == old(m.State()).(current := Handlers.SetReg(old(m.current), d, value))
  {
    m.current := m.current.(regs := m.current.regs[d := value]);
  }
}
