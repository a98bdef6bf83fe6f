/** What the four-switch draft promises, and where it parts from the
    if/else chain of the first draft. */
module SimSwitchProperties {
  import opened Bits
  import opened Shell
  import Handlers
  import SimChain
  import SimChainProperties
  import opened SimSwitch

  // ---------------------------------------------------------------------
  // Field facts.
  // ---------------------------------------------------------------------

  /** The eight bits 31:24 keys of the first switch. */
  predicate TopByteKey(op8: bv32) {
    op8 == 0xD4 || op8 == 0xB1 || op8 == 0xAB || op8 == 0xF1 || op8 == 0xEB || op8 == 0xEA || op8 == 0xCA || op8 == 0xAA
  }

  /** The bits 31:21 keys of either draft's memory cases. */
  predicate MemoryKey(op11: bv32) {
    op11 == 0x7C0 || op11 == 0x1C0 || op11 == 0x3C0 || op11 == 0x7C2 || op11 == 0x1C2 || op11 == 0x3C2 || op11 == 0x5C2
  }

  /** A word with a top-byte key is no B and no load or store, and it is a
      BR only for the extended ADDS and SUBS, the two keys whose bits 25:24
      are both set. */
  lemma TopByteWordFields(inst: bv32)
    requires TopByteKey(SimChain.Opcode8(inst))
    ensures SimChain.Opcode6(inst) != 0x14
    ensures !MemoryKey(SimChain.Opcode11(inst))
    ensures SimChain.Opcode16(inst) == 0xD61F ==> SimChain.Opcode8(inst) == 0xAB || SimChain.Opcode8(inst) == 0xEB
  {
    assert SimChain.Opcode6(inst) == SimChain.Opcode8(inst) >> 2;
    assert SimChain.Opcode11(inst) >> 3 == SimChain.Opcode8(inst);
    if SimChain.Opcode16(inst) == 0xD61F {
      assert SimChain.Opcode8(inst) & 3 == 3;
    }
  }

  /** A B word is no load or store and has no top-byte key. */
  lemma BWordFields(inst: bv32)
    requires SimChain.Opcode6(inst) == 0x14
    ensures !MemoryKey(SimChain.Opcode11(inst)) && !TopByteKey(SimChain.Opcode8(inst))
  {
    assert SimChain.Opcode11(inst) >> 5 == 0x14;
    assert SimChain.Opcode8(inst) >> 2 == 0x14;
  }

  /** A load or store is no BR and has no top-byte key. */
  lemma MemoryWordFields(inst: bv32)
    requires MemoryKey(SimChain.Opcode11(inst))
    ensures SimChain.Opcode16(inst) != 0xD61F && !TopByteKey(SimChain.Opcode8(inst))
  {
    assert SimChain.Opcode8(inst) == SimChain.Opcode11(inst) >> 3;
    assert SimChain.Opcode16(inst) >> 11 == SimChain.Opcode11(inst) & 0x1F;
  }

  // ---------------------------------------------------------------------
  // The switches one by one.
  // ---------------------------------------------------------------------

  /** The first switch never touches NEXT_STATE.PC or `branch_taken`; only
      HLT clears the run flag. */
  lemma Switch8KeepsControl(s: Sim, inst: bv32, sp: bv64)
    requires SwitchDefined(inst) && !ReturnsEarly(inst)
    ensures Switch8(s, inst, sp).next.pc == s.next.pc
    ensures Switch8(s, inst, sp).branchTaken == s.branchTaken
    ensures Switch8(s, inst, sp).runBit == (s.runBit && SimChain.Opcode8(inst) != 0xD4)
  {
    var op8 := SimChain.Opcode8(inst);
    if op8 == 0xD4 || op8 == 0xB1 || op8 == 0xAB {
    } else if op8 == 0xF1 || op8 == 0xEB {
    } else if op8 == 0xEA {
    } else {
    }
  }

  /** B, BR and the memory cases leave NEXT_STATE and both flags alone. */
  lemma LaterSwitchesKeepControl(s: Sim, inst: bv32)
    ensures LaterSwitches(s, inst).next == s.next
    ensures LaterSwitches(s, inst).runBit == s.runBit && LaterSwitches(s, inst).branchTaken == s.branchTaken
  {
    Switch11KeepsControl(Switch16(Switch6(s, inst), inst), inst);
  }

  lemma Switch11KeepsControl(s: Sim, inst: bv32)
    ensures Switch11(s, inst).next == s.next
    ensures Switch11(s, inst).runBit == s.runBit && Switch11(s, inst).branchTaken == s.branchTaken
  {
    var op11 := SimChain.Opcode11(inst);
    if op11 == 0x7C0 || op11 == 0x1C0 || op11 == 0x3C0 {
    } else {
    }
  }

  /** After `process_instruction` NEXT_STATE.PC is CURRENT_STATE.PC + 4
      whatever ran, the early return included. */
  lemma ProcessSetsDefaultPc(s: Sim, sp: bv64)
    requires ProcessDefined(s)
    ensures Process(s, sp).next.pc == Add64(s.current.pc, 4)
    ensures Process(s, sp).branchTaken == s.branchTaken
    ensures Process(s, sp).runBit == (s.runBit && SimChain.Opcode8(SimChain.Fetch(s)) != 0xD4)
  {
    var inst := SimChain.Fetch(s);
    if !ReturnsEarly(inst) {
      var a := SimChain.Advanced(s);
      Switch8KeepsControl(a, inst, sp);
      LaterSwitchesKeepControl(Switch8(a, inst, sp), inst);
    }
  }

  /** The early return of SUBS immediate loses only its own effect: no later
      switch has a case for a word with top byte 0xF1. */
  lemma SubsImmediateWordsReachNoLaterSwitch(s: Sim, inst: bv32)
    requires SimChain.Opcode8(inst) == 0xF1
    ensures LaterSwitches(s, inst) == s
  {
    TopByteWordFields(inst);
  }

  /** The stack pointer matters only to SUBS with `Rn` = 31. */
  lemma StackPointerOnlyReachesSubs(s: Sim, sp1: bv64, sp2: bv64)
    requires ProcessDefined(s)
    requires var inst := SimChain.Fetch(s);
      !((SimChain.Opcode8(inst) == 0xF1 || SimChain.Opcode8(inst) == 0xEB) && (inst >> 5) & 0x1F == 31)
    ensures Process(s, sp1) == Process(s, sp2)
  {
    var inst := SimChain.Fetch(s);
    if !ReturnsEarly(inst) {
      Switch8StackPointer(SimChain.Advanced(s), inst, sp1, sp2);
    }
  }

  lemma Switch8StackPointer(s: Sim, inst: bv32, sp1: bv64, sp2: bv64)
    requires SwitchDefined(inst) && !ReturnsEarly(inst)
    requires !((SimChain.Opcode8(inst) == 0xF1 || SimChain.Opcode8(inst) == 0xEB) && (inst >> 5) & 0x1F == 31)
    ensures Switch8(s, inst, sp1) == Switch8(s, inst, sp2)
  {
  }

  // ---------------------------------------------------------------------
  // The two drafts side by side.
  // ---------------------------------------------------------------------

  /** The words on which the two drafts can differ besides the stack pointer:
      BR after ADDS or SUBS extended or after B, which the chain never
      reaches, and the two LDURH keys. */
  predicate DraftsMayDiffer(inst: bv32) {
    || (SimChain.Opcode16(inst) == 0xD61F &&
        (SimChain.Opcode8(inst) == 0xAB || SimChain.Opcode8(inst) == 0xEB || SimChain.Opcode6(inst) == 0x14))
    || SimChain.Opcode11(inst) == 0x3C2 || SimChain.Opcode11(inst) == 0x5C2
  }

  /** With `SP` equal to REGS[31], which is what the chain reads, the two
      drafts agree on every other word the chain defines. */
  lemma DraftsAgree(s: Sim)
    requires SimChain.ProcessDefined(s)
    requires !DraftsMayDiffer(SimChain.Fetch(s))
    ensures ProcessDefined(s)
    ensures Process(s, s.current.regs[31]) == SimChain.Process(s)
  {
    var inst := SimChain.Fetch(s);
    var a := SimChain.Advanced(s);
    var c := SimChain.Select(inst);
    SimChainProperties.TopByteCases(inst);
    if TopByteKey(SimChain.Opcode8(inst)) {
      TopByteWordFields(inst);
      TopByteCaseAgrees(a, inst, c);
      LaterSwitchesIdle(Switch8(a, inst, a.current.regs[31]), inst);
    } else {
      assert Switch8(a, inst, a.current.regs[31]) == a;
      if SimChain.Opcode6(inst) == 0x14 {
        BWordFields(inst);
      }
      if MemoryKey(SimChain.Opcode11(inst)) {
        MemoryWordFields(inst);
      }
      LaterCaseAgrees(a, inst, c);
    }
  }

  /** For a top-byte word the first switch does what the chain's case does. */
  lemma TopByteCaseAgrees(a: Sim, inst: bv32, c: SimChain.Case)
    requires c == SimChain.Select(inst) && SimChain.CaseDefined(c, inst)
    requires TopByteKey(SimChain.Opcode8(inst))
    ensures SwitchDefined(inst) && !ReturnsEarly(inst)
    ensures Switch8(a, inst, a.current.regs[31]) == SimChain.Run(c, a, inst)
  {
    SimChainProperties.TopByteCases(inst);
  }

  /** With no B, BR or memory key the later switches change nothing. */
  lemma LaterSwitchesIdle(x: Sim, inst: bv32)
    requires SimChain.Opcode6(inst) != 0x14 && SimChain.Opcode16(inst) != 0xD61F && !MemoryKey(SimChain.Opcode11(inst))
    ensures LaterSwitches(x, inst) == x
  {
  }

  /** For any other word the later switches do what the chain's case does. */
  lemma LaterCaseAgrees(a: Sim, inst: bv32, c: SimChain.Case)
    requires c == SimChain.Select(inst) && !TopByteKey(SimChain.Opcode8(inst))
    requires !DraftsMayDiffer(inst)
    requires SimChain.Opcode6(inst) == 0x14 ==> !MemoryKey(SimChain.Opcode11(inst))
    requires MemoryKey(SimChain.Opcode11(inst)) ==> SimChain.Opcode16(inst) != 0xD61F
    ensures LaterSwitches(a, inst) == SimChain.Run(c, a, inst)
  {
    SimChainProperties.TopByteCases(inst);
    SimChainProperties.BCaseReached(inst);
    SimChainProperties.BrCaseReached(inst);
    SimChainProperties.MemoryCasesReached(inst);
  }

  /** LDURH on 0x3C2, the architectural key, loads in the chain and does
      nothing in the four switches; on 0x5C2 it is the other way round. */
  lemma LdurhKeysDiffer(s: Sim, sp: bv64)
    requires SimChain.Opcode11(SimChain.Fetch(s)) == 0x3C2 || SimChain.Opcode11(SimChain.Fetch(s)) == 0x5C2
    ensures ProcessDefined(s) && SimChain.ProcessDefined(s)
    ensures SimChain.Opcode11(SimChain.Fetch(s)) == 0x3C2 ==>
      && SimChain.Process(s) == SimChain.LdurhCase(SimChain.Advanced(s), SimChain.Fetch(s))
      && Process(s, sp) == SimChain.Advanced(s)
    ensures SimChain.Opcode11(SimChain.Fetch(s)) == 0x5C2 ==>
      && SimChain.Process(s) == SimChain.Advanced(s)
      && Process(s, sp) == SimChain.LdurhCase(SimChain.Advanced(s), SimChain.Fetch(s))
  {
    var inst := SimChain.Fetch(s);
    MemoryWordFields(inst);
    SimChainProperties.TopByteCases(inst);
    SimChainProperties.BCaseReached(inst);
    SimChainProperties.BrCaseReached(inst);
    SimChainProperties.MemoryCasesReached(inst);
  }

  /** BR after ADDS or SUBS extended: the word runs both cases, and BR jumps
      to `Rn` as the arithmetic case left it, while the chain only does the
      arithmetic and stays on its PC. */
  lemma BrAfterExtendedArithmetic(s: Sim, sp: bv64)
    requires var inst := SimChain.Fetch(s);
      SimChain.Opcode16(inst) == 0xD61F && (SimChain.Opcode8(inst) == 0xAB || SimChain.Opcode8(inst) == 0xEB)
    ensures ProcessDefined(s) && SimChain.ProcessDefined(s)
    ensures var inst := SimChain.Fetch(s);
      var first := Switch8(SimChain.Advanced(s), inst, sp);
      Process(s, sp) == first.(current := first.current.(pc := first.current.regs[(inst >> 5) & 0x1F]))
    ensures SimChain.Process(s).current.pc == s.current.pc
  {
    var inst := SimChain.Fetch(s);
    TopByteWordFields(inst);
    SimChainProperties.TopByteCases(inst);
  }

  /** B and BR in one word: BR runs last and overrides the B target. */
  lemma BThenBr(s: Sim, sp: bv64)
    requires SimChain.Opcode6(SimChain.Fetch(s)) == 0x14 && SimChain.Opcode16(SimChain.Fetch(s)) == 0xD61F
    ensures ProcessDefined(s)
    ensures Process(s, sp) == s.(current := s.current.(pc := s.current.regs[(SimChain.Fetch(s) >> 5) & 0x1F]),
                                next := s.next.(pc := Add64(s.current.pc, 4)))
  {
    BWordFields(SimChain.Fetch(s));
  }

  /** Such words exist: 0x53587C00 has 0x14 in bits 31:26 and 0xD61F in
      bits 25:10. */
  lemma BAndBrShareAWord()
    ensures SimChain.Opcode6(0x5358_7C00) == 0x14 && SimChain.Opcode16(0x5358_7C00) == 0xD61F
  {
  }
}
