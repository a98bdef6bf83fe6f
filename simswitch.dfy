/** The four-switch draft (TP1-ARM/src/sim.c): after the default PC the
    word goes through four `switch` statements in a row, on bits 31:24,
    31:26, 25:10 and 31:21. Every switch runs, so a word can trigger a case
    in more than one of them, and each later case sees the state the
    earlier ones left. SUBS reads the shell's stack pointer `SP` when `Rn`
    is 31, and SUBS immediate with a reserved shift returns from
    `process_instruction` before the later switches. The case bodies are
    those of the if/else chain (module SimChain), except that LDURH is
    keyed on 0x5C2. */
module SimSwitch {
  import opened Bits
  import opened Shell
  import opened Decode
  import Handlers
  import opened SimChain

  /** `return` inside the SUBS immediate case: a shift of 2 or 3. */
  predicate ReturnsEarly(inst: bv32) {
    Opcode8(inst) == 0xF1 && (inst >> 22) & 0x3 >= 2
  }

  /** The first switch runs inside what C defines: ANDS with ROR by 0 would
      shift by 64. */
  predicate SwitchDefined(inst: bv32) {
    Opcode8(inst) == 0xEA ==> Handlers.AndsDefined(inst)
  }

  /** The switch on bits 31:24. The `default` only prints. */
  function Switch8(s: Sim, inst: bv32, sp: bv64): Sim
    requires SwitchDefined(inst) && !ReturnsEarly(inst)
  {
    var op8 := Opcode8(inst);
    if op8 == 0xD4 then Handlers.HltStep(s, inst)
    else if op8 == 0xB1 then AddsImmCase(s, inst)
    else if op8 == 0xAB then AddsExtCase(s, inst)
    else if op8 == 0xF1 then SubsImmCase(s, inst, sp)
    else if op8 == 0xEB then SubsExtCase(s, inst, sp)
    else if op8 == 0xEA then Handlers.AndsStep(s, inst)
    else if op8 == 0xCA then EorCase(s, inst)
    else if op8 == 0xAA then Handlers.OrrStep(s, inst)
    else s
  }

  /** The switch on bits 31:26: B. */
  function Switch6(s: Sim, inst: bv32): Sim {
    if Opcode6(inst) == 0x14 then BCase(s, inst) else s
  }

  /** The switch on bits 25:10: BR. */
  function Switch16(s: Sim, inst: bv32): Sim {
    if Opcode16(inst) == 0xD61F then BrCase(s, inst) else s
  }

  /** The switch on bits 31:21: the loads and stores, LDURH on 0x5C2. */
  function Switch11(s: Sim, inst: bv32): Sim {
    var op11 := Opcode11(inst);
    if op11 == 0x7C0 then SturCase(s, inst)
    else if op11 == 0x1C0 then SturbCase(s, inst)
    else if op11 == 0x3C0 then SturhCase(s, inst)
    else if op11 == 0x7C2 then LdurCase(s, inst)
    else if op11 == 0x1C2 then LdurbCase(s, inst)
    else if op11 == 0x5C2 then LdurhCase(s, inst)
    else s
  }

  /** The three switches after the first. */
  function LaterSwitches(s: Sim, inst: bv32): Sim {
    Switch11(Switch16(Switch6(s, inst), inst), inst)
  }

  predicate ProcessDefined(s: Sim) {
    SwitchDefined(Fetch(s))
  }

  /** `process_instruction` with the shell's stack pointer `sp`. */
  function Process(s: Sim, sp: bv64): Sim
    requires ProcessDefined(s)
  {
    var inst := Fetch(s);
    if ReturnsEarly(inst) then Advanced(s)
    else LaterSwitches(Switch8(Advanced(s), inst, sp), inst)
  }

  /** `process_instruction` in place: the four switches one after the
      other, or the early return. */
  method ProcessInstruction(m: Machine, sp: bv64)
    requires ProcessDefined(m.State())
    modifies m
    ensures m.State() == Process(old(m.State()), sp)
  {
    ghost var s0 := m.State();
    var inst := MemRead32(m.mem, m.current.pc);
    assert inst == Fetch(s0);
    m.next := m.next.(pc := Add64(m.current.pc, 4));
    assert m.State() == Advanced(s0);
    var returned := RunSwitch8(m, inst, sp);
    if returned {
      return;
    }
    RunLaterSwitches(m, inst);
  }

  /** The switches on bits 31:26, 25:10 and 31:21, in that order. */
  method RunLaterSwitches(m: Machine, inst: bv32)
    modifies m
    ensures m.State() == LaterSwitches(old(m.State()), inst)
  {
    if Opcode6(inst) == 0x14 {
      m.current := m.current.(pc := Add64(m.current.pc, Handlers.BranchOffset(inst)));
    }
    if Opcode16(inst) == 0xD61F {
      m.current := m.current.(pc := m.current.regs[(inst >> 5) & 0x1F]);
    }
    RunSwitch11(m, inst);
  }

  /** The first switch; `returned` tells the caller to stop. */
  method RunSwitch8(m: Machine, inst: bv32, sp: bv64) returns (returned: bool)
    requires SwitchDefined(inst)
    modifies m
    ensures returned == ReturnsEarly(inst)
    ensures returned ==> m.State() == old(m.State())
    ensures !returned ==> m.State() == Switch8(old(m.State()), inst, sp)
  {
    returned := false;
    var op8 := Opcode8(inst);
    var rd := inst & 0x1F;
    if op8 == 0xD4 {
      m.runBit := false;
    } else if op8 == 0xB1 {
      ExecuteAddsImmediate(m, rd, (inst >> 5) & 0x1F, (inst >> 10) & 0xFFF, (inst >> 22) & 0x1);
    } else if op8 == 0xAB {
      var f := DecodeRGroup(inst);
      ExecuteAddsExtended(m, f.d, f.n, f.m, f.opt, f.imm3);
    } else if op8 == 0xF1 {
      if (inst >> 22) & 0x3 >= 2 {
        returned := true;
        return;
      }
      FlagAndWriteUnless31Current(m, rd, SubsImmValue(m.current, inst, sp));
    } else if op8 == 0xEB {
      FlagAndWriteUnless31Current(m, rd, SubsExtValue(m.current, inst, sp));
    } else if op8 == 0xEA {
      Handlers.HandleAnds(m, inst);
    } else if op8 == 0xCA {
      FlagAndWriteCurrent(m, rd, Handlers.EorResult(m.current, inst));
    } else if op8 == 0xAA {
      Handlers.HandleOrr(m, inst);
    }
  }

  /** The switch on bits 31:21. */
  method RunSwitch11(m: Machine, inst: bv32)
    modifies m
    ensures m.State() == Switch11(old(m.State()), inst)
  {
    var op11 := Opcode11(inst);
    if op11 == 0x7C0 {
      RunStur(m, inst);
    } else if op11 == 0x1C0 {
      RunSturb(m, inst);
    } else if op11 == 0x3C0 {
      RunSturh(m, inst);
    } else if op11 == 0x7C2 {
      RunLdur(m, inst);
    } else if op11 == 0x1C2 {
      RunLdurb(m, inst);
    } else if op11 == 0x5C2 {
      RunLdurh(m, inst);
    }
  }
}
