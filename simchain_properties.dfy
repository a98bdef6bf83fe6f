/** What the if/else chain of TP1-ARM/sim.c promises: which case a word
    reaches, which copy of the state each case writes, and what the
    `execute_*` helpers compute. */
module SimChainProperties {
  import opened Bits
  import opened Shell
  import opened Decode
  import Handlers
  import HandlerProperties
  import Sim1Handlers
  import Sim1Properties
  import opened SimChain

  // ---------------------------------------------------------------------
  // Which case a word reaches.
  // ---------------------------------------------------------------------

  /** The bits 31:24 cases come first: each is reached exactly by its byte. */
  lemma TopByteCases(inst: bv32)
    ensures Select(inst) == Hlt <==> Opcode8(inst) == 0xD4
    ensures Select(inst) == AddsImm <==> Opcode8(inst) == 0xB1
    ensures Select(inst) == AddsExt <==> Opcode8(inst) == 0xAB
    ensures Select(inst) == SubsImm <==> Opcode8(inst) == 0xF1
    ensures Select(inst) == SubsExt <==> Opcode8(inst) == 0xEB
    ensures Select(inst) == Ands <==> Opcode8(inst) == 0xEA
    ensures Select(inst) == Eor <==> Opcode8(inst) == 0xCA
    ensures Select(inst) == Orr <==> Opcode8(inst) == 0xAA
  {
  }

  /** Every word whose bits 31:26 are 0x14 reaches the B case: its top byte
      is one of 0x50 to 0x53, which no earlier test takes. */
  lemma BCaseReached(inst: bv32)
    ensures Select(inst) == B <==> Opcode6(inst) == 0x14
  {
    if Opcode6(inst) == 0x14 {
      assert Opcode8(inst) >> 2 == 0x14;
    }
  }

  /** A word with bits 25:10 equal to 0xD61F reaches the BR case unless an
      earlier case takes it: ADDS or SUBS extended (top byte 0xAB or 0xEB)
      or B (top byte 0x53) share those bits. */
  lemma BrCaseReached(inst: bv32)
    ensures Select(inst) == Br <==>
      Opcode16(inst) == 0xD61F && Opcode8(inst) != 0xAB && Opcode8(inst) != 0xEB && Opcode6(inst) != 0x14
  {
    if Opcode16(inst) == 0xD61F {
      assert Opcode8(inst) & 3 == 3;
    }
  }

  /** The six load and store cases are reached exactly by their bits 31:21. */
  lemma MemoryCasesReached(inst: bv32)
    ensures Select(inst) == Stur <==> Opcode11(inst) == 0x7C0
    ensures Select(inst) == Sturb <==> Opcode11(inst) == 0x1C0
    ensures Select(inst) == Sturh <==> Opcode11(inst) == 0x3C0
    ensures Select(inst) == Ldur <==> Opcode11(inst) == 0x7C2
    ensures Select(inst) == Ldurb <==> Opcode11(inst) == 0x1C2
    ensures Select(inst) == Ldurh <==> Opcode11(inst) == 0x3C2
  {
    var op11 := Opcode11(inst);
    if op11 == 0x7C0 || op11 == 0x1C0 || op11 == 0x3C0 || op11 == 0x7C2 || op11 == 0x1C2 || op11 == 0x3C2 {
      assert Opcode8(inst) == op11 >> 3;
      assert Opcode6(inst) == op11 >> 5;
      assert Opcode16(inst) >> 11 == op11 & 0x1F;
    }
  }

  /** The architectural BR encoding `0xD61F0000 | (n << 5)` has 0x87C0 in
      bits 25:10, not 0xD61F, and reaches no case at all. */
  lemma StandardBrWordUnmatched(n: bv32)
    requires n < 32
    ensures Opcode16(0xD61F_0000 | (n << 5)) == 0x87C0
    ensures Select(0xD61F_0000 | (n << 5)) == NotImplemented
  {
  }

  /** An architectural B word has 5 in bits 31:26, so it never reaches the
      B case; it reaches BR when its offset puts 0xD61F in bits 25:10 and no
      case otherwise. */
  lemma StandardBWordMissesB(inst: bv32)
    requires inst >> 26 == 5
    ensures Select(inst) == if Opcode16(inst) == 0xD61F then Br else NotImplemented
  {
    assert Opcode8(inst) >> 2 == 5;
    assert Opcode11(inst) >> 5 == 5;
  }

  // ---------------------------------------------------------------------
  // What the cases change.
  // ---------------------------------------------------------------------

  /** No case touches NEXT_STATE.PC or `branch_taken`, and only HLT clears
      the run flag. */
  lemma RunKeepsControl(c: Case, s: Sim, inst: bv32)
    requires CaseDefined(c, inst)
    ensures Run(c, s, inst).next.pc == s.next.pc
    ensures Run(c, s, inst).branchTaken == s.branchTaken
    ensures Run(c, s, inst).runBit == (s.runBit && c != Hlt)
  {
    match c
    case Hlt =>
    case AddsImm =>
    case AddsExt =>
    case SubsImm =>
    case SubsExt =>
    case Ands =>
    case Eor =>
    case Orr =>
    case B =>
    case Br =>
    case Stur =>
    case Sturb =>
    case Sturh =>
    case Ldur =>
    case Ldurb =>
    case Ldurh =>
    case NotImplemented =>
  }

  /** After `process_instruction` NEXT_STATE.PC is CURRENT_STATE.PC + 4 as the
      first line set it, whatever case ran. */
  lemma ProcessKeepsDefaultPc(s: Sim)
    requires ProcessDefined(s)
    ensures Process(s).next.pc == Add64(s.current.pc, 4)
    ensures Process(s).branchTaken == s.branchTaken
    ensures Process(s).runBit == (s.runBit && Select(Fetch(s)) != Hlt)
  {
    RunKeepsControl(Select(Fetch(s)), Advanced(s), Fetch(s));
  }

  /** A word no case matches only gets the default NEXT_STATE.PC. */
  lemma UnmatchedWordOnlyMovesNextPc(s: Sim)
    requires Select(Fetch(s)) == NotImplemented
    ensures ProcessDefined(s)
    ensures Process(s) == s.(next := s.next.(pc := Add64(s.current.pc, 4)))
  {
  }

  /** B and BR write CURRENT_STATE.PC and leave NEXT_STATE.PC at the
      default; nothing else changes. */
  lemma BranchCasesWriteCurrentPc(s: Sim)
    requires Select(Fetch(s)) == B || Select(Fetch(s)) == Br
    ensures ProcessDefined(s)
    ensures var inst := Fetch(s);
      var target := if Select(inst) == B then Add64(s.current.pc, Handlers.BranchOffset(inst))
                    else s.current.regs[(inst >> 5) & 0x1F];
      Process(s) == s.(current := s.current.(pc := target), next := s.next.(pc := Add64(s.current.pc, 4)))
  {
  }

  /** ADDS immediate reads the shift from bit 22 alone, writes the sum to
      CURRENT_STATE.REGS[Rd] (31 included) and the flags to NEXT_STATE,
      whose registers stay as they were. */
  lemma AddsImmCaseWritesCurrentRegister(s: Sim, inst: bv32)
    ensures var imm12 := ((inst >> 10) & 0xFFF) as bv64;
      var r := Add64(s.current.regs[(inst >> 5) & 0x1F], if (inst >> 22) & 0x1 == 1 then imm12 << 12 else imm12);
      && AddsImmCase(s, inst).current == Handlers.SetReg(s.current, inst & 0x1F, r)
      && AddsImmCase(s, inst).next == WithFlags(s.next, r)
      && AddsImmCase(s, inst).mem == s.mem
  {
  }

  /** The inline SUBS cases set Z and N from the difference every time but
      write it to CURRENT_STATE.REGS[Rd] only when Rd is not 31. */
  lemma SubsCasesSkipRegister31(s: Sim, inst: bv32, sp: bv64)
    ensures var r := SubsExtValue(s.current, inst, sp);
      && SubsExtCase(s, inst, sp).next == WithFlags(s.next, r)
      && SubsExtCase(s, inst, sp).current == (if inst & 0x1F == 31 then s.current else Handlers.SetReg(s.current, inst & 0x1F, r))
    ensures (inst >> 22) & 0x3 < 2 ==>
      var r := SubsImmValue(s.current, inst, sp);
      && SubsImmCase(s, inst, sp).next == WithFlags(s.next, r)
      && SubsImmCase(s, inst, sp).current == (if inst & 0x1F == 31 then s.current else Handlers.SetReg(s.current, inst & 0x1F, r))
  {
  }

  /** The inline SUBS immediate computes what `execute_SUBS_immediate`
      would: `operand1 - operand2` equals the helper's `operand1 + ~imm + 1`,
      and for a 12-bit field the 64-bit and the 32-bit `<< 12` agree. */
  lemma InlineSubsImmAgreesWithHelper(cur: CpuState, inst: bv32)
    requires (inst >> 22) & 0x3 < 2
    ensures SubsImmValue(cur, inst, cur.regs[31]) ==
      ComplementSum(cur.regs[(inst >> 5) & 0x1F], SubsImmediateOperand((inst >> 10) & 0xFFF, (inst >> 22) & 0x3))
  {
    var op2 := SubsImmediateOperand((inst >> 10) & 0xFFF, (inst >> 22) & 0x3);
    assert SubsImmOperand2(inst) == op2;
    ComplementSumSubtracts(cur.regs[(inst >> 5) & 0x1F], op2);
  }

  /** The inline SUBS extended computes what `execute_SUBS_extended` would. */
  lemma InlineSubsExtAgreesWithHelper(cur: CpuState, inst: bv32)
    ensures var f := DecodeRGroup(inst);
      SubsExtValue(cur, inst, cur.regs[31]) ==
        ComplementSum(cur.regs[f.n], ExtendRegister(cur.regs[f.m], f.opt, f.imm3))
  {
    var f := DecodeRGroup(inst);
    ComplementSumSubtracts(cur.regs[f.n], ExtendRegister(cur.regs[f.m], f.opt, f.imm3));
  }

  /** The chain's own code writes registers to CURRENT_STATE: ADDS, SUBS,
      EOR and the loads leave NEXT_STATE's registers alone, and none of
      them touches memory. */
  lemma InlineCasesWriteCurrentCopy(c: Case, s: Sim, inst: bv32)
    requires c in {AddsImm, AddsExt, SubsImm, SubsExt, Eor, Ldur, Ldurb, Ldurh}
    requires CaseDefined(c, inst)
    ensures Run(c, s, inst).next.regs == s.next.regs
    ensures Run(c, s, inst).mem == s.mem
    ensures Run(c, s, inst).current.pc == s.current.pc
  {
    if c == AddsImm || c == AddsExt {
    } else if c == SubsImm || c == SubsExt {
    } else if c == Eor {
    } else {
    }
  }

  /** ANDS and ORR are the modular handlers, which write NEXT_STATE:
      CURRENT_STATE and memory stay as they were. */
  lemma HandlerCasesWriteNextCopy(c: Case, s: Sim, inst: bv32)
    requires c == Ands || c == Orr
    requires CaseDefined(c, inst)
    ensures Run(c, s, inst).current == s.current
    ensures Run(c, s, inst).mem == s.mem
  {
  }

  /** The loads write CURRENT_STATE.REGS[Rt] from the address
      `REGS[Rn] + imm9`, with `imm9` unsigned, and change nothing else. */
  lemma LdurWritesCurrentRegister(s: Sim, inst: bv32)
    ensures var addr := Add64(s.current.regs[(inst >> 5) & 0x1F], ((inst >> 12) & 0x1FF) as bv64);
      LdurCase(s, inst) == s.(current := Handlers.SetReg(s.current, inst & 0x1F, Sim1Handlers.PairRead64(s.mem, addr)))
  {
    HandlerProperties.MemAddressUnsigned(s.current, inst, (inst >> 5) & 0x1F, ((inst >> 12) & 0x1FF) as bv64);
  }

  /** LDURB zero-extends the byte it loads. */
  lemma LdurbWritesCurrentRegister(s: Sim, inst: bv32)
    ensures var addr := Add64(s.current.regs[(inst >> 5) & 0x1F], ((inst >> 12) & 0x1FF) as bv64);
      LdurbCase(s, inst) == s.(current := Handlers.SetReg(s.current, inst & 0x1F, Handlers.LoadByte(s.mem, addr)))
  {
    HandlerProperties.MemAddressUnsigned(s.current, inst, (inst >> 5) & 0x1F, ((inst >> 12) & 0x1FF) as bv64);
  }

  /** LDURH zero-extends the halfword it loads. */
  lemma LdurhWritesCurrentRegister(s: Sim, inst: bv32)
    ensures var addr := Add64(s.current.regs[(inst >> 5) & 0x1F], ((inst >> 12) & 0x1FF) as bv64);
      LdurhCase(s, inst) == s.(current := Handlers.SetReg(s.current, inst & 0x1F, Handlers.LoadHalf(s.mem, addr)))
  {
    HandlerProperties.MemAddressUnsigned(s.current, inst, (inst >> 5) & 0x1F, ((inst >> 12) & 0x1FF) as bv64);
  }

  /** The stores change memory and nothing else, at the address
      `REGS[Rn] + imm9` with `imm9` unsigned. */
  lemma SturWritesOnlyMemory(s: Sim, inst: bv32)
    ensures var addr := Add64(s.current.regs[(inst >> 5) & 0x1F], ((inst >> 12) & 0x1FF) as bv64);
      SturCase(s, inst) == s.(mem := Sim1Handlers.PairStore64(s.mem, addr, s.current.regs[inst & 0x1F]))
  {
    HandlerProperties.MemAddressUnsigned(s.current, inst, (inst >> 5) & 0x1F, ((inst >> 12) & 0x1FF) as bv64);
  }

  /** STURB and STURH keep the offset in an `int64_t`, which for a 9-bit
      field gives the same address. */
  lemma SturbWritesOnlyMemory(s: Sim, inst: bv32)
    ensures var addr := Add64(s.current.regs[(inst >> 5) & 0x1F], ((inst >> 12) & 0x1FF) as bv64);
      SturbCase(s, inst) == s.(mem := StoreByte(s.mem, addr, Low8(s.current.regs[inst & 0x1F])))
  {
    HandlerProperties.MemAddressUnsigned(s.current, inst, (inst >> 5) & 0x1F, ((inst >> 12) & 0x1FF) as bv64);
    Sim1Properties.NarrowAddressesAgree(s.current, inst);
  }

  lemma SturhWritesOnlyMemory(s: Sim, inst: bv32)
    ensures var addr := Add64(s.current.regs[(inst >> 5) & 0x1F], ((inst >> 12) & 0x1FF) as bv64);
      SturhCase(s, inst) == s.(mem := StoreHalf(s.mem, addr, Low16(s.current.regs[inst & 0x1F])))
  {
    HandlerProperties.MemAddressUnsigned(s.current, inst, (inst >> 5) & 0x1F, ((inst >> 12) & 0x1FF) as bv64);
    Sim1Properties.NarrowAddressesAgree(s.current, inst);
  }

  /** STUR then LDUR through the same base register and offset loads the
      stored register back, at any address: the chain's 64-bit accessors
      are two word accesses at `addr` and `addr + 4`. */
  lemma StoreThenLoadDouble(s: Sim, store: bv32, load: bv32)
    requires (store >> 5) & 0x1F == (load >> 5) & 0x1F && (store >> 12) & 0x1FF == (load >> 12) & 0x1FF
    ensures LdurCase(SturCase(s, store), load).current.regs[load & 0x1F] == s.current.regs[store & 0x1F]
  {
    HandlerProperties.SameMemAddress(s.current, store, load);
    Sim1Properties.PairRoundTrip(s.mem, Handlers.MemAddress(s.current, store), s.current.regs[store & 0x1F]);
  }
}
