/** The driver of the monolithic engine (src/sim1.c): the opcode table of
    `init_opcode_map`, whose 25 entries are full 32-bit patterns cut down to
    their top `length` bits when they are put, the classifier
    `decode_instruction`, which masks the word at widths 22, 11, 9, 8 and 6,
    and `process_instruction`. */
module Sim1 {
  import opened Bits
  import opened Shell
  import opened Hashmap
  import opened Table
  import opened Sim1Handlers
  import opened Sim1Properties

  /** The rows of the `entries[]` array of `init_opcode_map`, by index, with
      each pattern written out in full as in the source. */
  function EntryAt(i: nat): (e: InstructionEntry<Handler>)
    requires i < 25
    ensures 6 <= e.length <= 22
  {
    match i
    case 0 => InstructionEntry(0xD450_0000, 8, Hlt)
    case 1 => InstructionEntry(0x5400_0000, 8, BCond)
    case 2 => InstructionEntry(0x1400_0000, 6, B)
    case 3 => InstructionEntry(0xD61F_0000, 22, Br)
    case 4 => InstructionEntry(0xB100_0000, 8, AddsImm)
    case 5 => InstructionEntry(0xAB00_0000, 8, AddsReg)
    case 6 => InstructionEntry(0xF100_0000, 8, SubsImm)
    case 7 => InstructionEntry(0xEB00_0000, 8, SubsReg)
    case 8 => InstructionEntry(0xEA00_0000, 8, Ands)
    case 9 => InstructionEntry(0xCA00_0000, 8, Eor)
    case 10 => InstructionEntry(0xAA00_0000, 8, Orr)
    case 11 => InstructionEntry(0xD280_0000, 9, Movz)
    case 12 => InstructionEntry(0xD340_0000, 9, Shifts)
    case 13 => InstructionEntry(0xD380_0000, 9, Shifts)
    case 14 => InstructionEntry(0xF800_0000, 11, Stur)
    case 15 => InstructionEntry(0xF840_0000, 11, Ldur)
    case 16 => InstructionEntry(0xB400_0000, 8, Cbz)
    case 17 => InstructionEntry(0xB500_0000, 8, Cbnz)
    case 18 => InstructionEntry(0x9B00_0000, 11, Mul)
    case 19 => InstructionEntry(0x3800_0000, 11, Sturb)
    case 20 => InstructionEntry(0x7800_0000, 11, Sturh)
    case 21 => InstructionEntry(0x3840_0000, 11, Ldurb)
    case 22 => InstructionEntry(0x7840_0000, 11, Ldurh)
    case 23 => InstructionEntry(0x8B00_0000, 11, AddReg)
    case _ => InstructionEntry(0x9100_0000, 8, AddImm)
  }

  /** `entries[]`, in source order. */
  const Entries: seq<InstructionEntry<Handler>> := seq(25, i requires 0 <= i < 25 => EntryAt(i))

  /** The top `len` bits of a word, `x >> (32 - len)`. */
  function Key(x: bv32, len: bv32): bv32
    requires 0 < len <= 32
  {
    x >> (32 - len)
  }

  /** The `hashmap_put` call the initialisation loop makes for entry `e`:
      the key is the pattern shifted down to its top `length` bits. */
  function PutOf(e: InstructionEntry<Handler>): Entry<Handler>
    requires 0 < e.length <= 32
  {
    Entry(e.length, Key(e.pattern, e.length), e.handler)
  }

  /** The puts of the initialisation loop, in order. */
  function Puts(): seq<Entry<Handler>> {
    seq(25, i requires 0 <= i < 25 => PutOf(EntryAt(i)))
  }

  /** The widths of `format_map[]`, widest first. */
  const Lengths: seq<bv32> := [22, 11, 9, 8, 6]

  /** The probes `decode_instruction` makes for `instr`, in order. */
  function Probes(instr: bv32): seq<Probe> {
    seq(5, k requires 0 <= k < 5 => Probe(Lengths[k], Key(instr, Lengths[k])))
  }

  /** The handler `decode_instruction` returns once the table is loaded. */
  function Classify(instr: bv32): Option<Handler> {
    FirstHit(Puts(), Probes(instr))
  }

  /** The key `decode_instruction` computes, `(instr & mask) >> (32 - len)`
      with `mask = (0xFFFFFFFF >> (32 - len)) << (32 - len)`. It is the top
      `len` bits of the word: the mask clears only bits the shift drops. */
  function MaskedKey(instr: bv32, len: bv32): (k: bv32)
    requires 0 < len <= 32
    ensures k == Key(instr, len)
  {
    var mask := (0xFFFF_FFFF >> (32 - len)) << (32 - len);
    (instr & mask) >> (32 - len)
  }

  // ---------------------------------------------------------------------
  // The table
  // ---------------------------------------------------------------------

  lemma DistinctRows0()
    ensures forall i, j | 0 <= i < 6 && i < j < |Puts()| :: !HasKey(Puts()[j], Puts()[i].length, Puts()[i].opcode)
  {
  }

  lemma DistinctRows1()
    ensures forall i, j | 6 <= i < 12 && i < j < |Puts()| :: !HasKey(Puts()[j], Puts()[i].length, Puts()[i].opcode)
  {
  }

  lemma DistinctRows2()
    ensures forall i, j | 12 <= i < 18 && i < j < |Puts()| :: !HasKey(Puts()[j], Puts()[i].length, Puts()[i].opcode)
  {
  }

  lemma DistinctRows3()
    ensures forall i, j | 18 <= i < j < |Puts()| :: !HasKey(Puts()[j], Puts()[i].length, Puts()[i].opcode)
  {
  }

  /** The 25 `(length, key)` pairs are pairwise distinct, so no put of the
      initialisation loop overwrites another. */
  lemma EntriesDistinct()
    ensures DistinctPuts(Puts())
  {
    DistinctRows0();
    DistinctRows1();
    DistinctRows2();
    DistinctRows3();
  }

  /** Once loaded, the table returns every entry's own handler for the top
      `length` bits of its own pattern. */
  lemma EntryRetrievable(i: int)
    requires 0 <= i < |Entries|
    ensures Loaded(Puts(), Entries[i].length, Key(Entries[i].pattern, Entries[i].length)) == Some(Entries[i].handler)
  {
    EntriesDistinct();
    LoadedDistinct(Puts(), i);
  }

  // ---------------------------------------------------------------------
  // Classification
  // ---------------------------------------------------------------------

  /** Every word whose top 22 bits are those of `0xD61F0000` (any `BR Xn`)
      classifies to `handle_br`: the widest probe hits first. */
  lemma BrWordsClassify(instr: bv32)
    requires instr >> 10 == 0xD61F_0000 >> 10
    ensures Classify(instr) == Some(Br)
  {
    EntryRetrievable(3);
    FirstHitAt(Puts(), Probes(instr), 0);
  }

  /** A word whose top eleven bits are not those of `BR` misses the 22-bit
      probe. */
  lemma WideProbeMisses(instr: bv32)
    requires instr >> 21 != 0xD61F_0000 >> 21
    ensures Loaded(Puts(), 22, Key(instr, 22)) == None
  {
    var k := Key(instr, 22);
    assert k != 0x3587C0 by {
      assert k >> 11 == instr >> 21;
    }
    LoadedMissing(Puts(), 22, k);
  }

  /** The 11-bit probe misses for a word whose top eleven bits are none of
      the 11-bit keys. */
  lemma ElevenBitProbeMisses(instr: bv32)
    requires instr >> 21 !in {0x7C0, 0x7C2, 0x4D8, 0x1C0, 0x3C0, 0x1C2, 0x3C2, 0x458}
    ensures Loaded(Puts(), 11, Key(instr, 11)) == None
  {
    LoadedMissing(Puts(), 11, Key(instr, 11));
  }

  /** `MOVZ` with any `hw` (top nine bits `0x1A5`, as in `0xD2800000` and
      `0xD2A00000`) classifies to `handle_movz`: the table keys `MOVZ` at
      nine bits, so `hw` never reaches the key. */
  lemma MovzAnyHwClassifies(instr: bv32)
    requires instr >> 23 == 0x1A5
    ensures Classify(instr) == Some(Movz)
  {
    WideProbeMisses(instr);
    ElevenBitProbeMisses(instr);
    assert Key(instr, 9) == 0x1A5;
    EntryRetrievable(11);
    FirstHitAt(Puts(), Probes(instr), 2);
  }

  /** The two nine-bit patterns `0x1A6` and `0x1A7` (the entries
      `0xD3400000` and `0xD3800000`) that the table maps to `handle_shifts`
      both classify to it. */
  lemma ShiftWordsClassify(instr: bv32)
    requires instr >> 23 == 0x1A6 || instr >> 23 == 0x1A7
    ensures Classify(instr) == Some(Shifts)
  {
    WideProbeMisses(instr);
    ElevenBitProbeMisses(instr);
    if instr >> 23 == 0x1A6 {
      assert Key(instr, 9) == 0x1A6;
      EntryRetrievable(12);
    } else {
      assert Key(instr, 9) == 0x1A7;
      EntryRetrievable(13);
    }
    FirstHitAt(Puts(), Probes(instr), 2);
  }

  /** Every `B` word (top six bits `000101`) classifies to `handle_b`: no
      wider entry shares its leading bits. */
  lemma BWordsClassify(instr: bv32)
    requires instr >> 26 == 0x05
    ensures Classify(instr) == Some(B)
  {
    WideProbeMisses(instr);
    ElevenBitProbeMisses(instr);
    LoadedMissing(Puts(), 9, Key(instr, 9));
    LoadedMissing(Puts(), 8, Key(instr, 8));
    assert Key(instr, 6) == 0x05;
    EntryRetrievable(2);
    FirstHitAt(Puts(), Probes(instr), 4);
  }

  // ---------------------------------------------------------------------
  // Processing one word
  // ---------------------------------------------------------------------

  /** What `process_instruction` did: ran a handler, or met a word no entry
      matches (where the C code prints a message and calls `exit(1)`). */
  datatype Outcome = Executed(handler: Handler) | Unsupported(instr: bv32)

  /** The word at `CURRENT_STATE.PC`. */
  function Fetch(s: Sim): bv32 {
    MemRead32(s.mem, s.current.pc)
  }

  /** The handler that will run stays inside what C defines. */
  predicate ProcessDefined(s: Sim) {
    Classify(Fetch(s)).Some? ==> Defined(Classify(Fetch(s)).value, Fetch(s))
  }

  /** The state after `process_instruction`: `branch_taken` cleared and the
      handler run on a hit; nothing changed on a miss. `check` stands for
      `check_condition`. */
  function Process(s: Sim, check: bv32 -> bool): Sim
    requires ProcessDefined(s)
  {
    match Classify(Fetch(s))
    case Some(h) => Execute(h, s.(branchTaken := false), Fetch(s), check)
    case None => s
  }

  /** After a handler that is not a branch, whatever the latch held before,
      NEXT_STATE.PC has moved on by four, `branch_taken` is clear, the
      CURRENT_STATE is untouched, only HLT clears the run flag and only the
      stores change memory. */
  lemma ProcessAdvancesPc(s: Sim, check: bv32 -> bool)
    requires ProcessDefined(s)
    requires Classify(Fetch(s)).Some? && !IsBranch(Classify(Fetch(s)).value)
    ensures var h := Classify(Fetch(s)).value;
      var r := Process(s, check);
      && r.next.pc == Add64(s.next.pc, 4)
      && !r.branchTaken
      && r.current == s.current
      && r.runBit == (s.runBit && h != Hlt)
      && (!WritesMemory(h) ==> r.mem == s.mem)
  {
    NonBranchFrame(Classify(Fetch(s)).value, s.(branchTaken := false), Fetch(s), check);
  }

  /** A word no entry matches leaves the machine as it was. */
  lemma ProcessMissChangesNothing(s: Sim, check: bv32 -> bool)
    requires Classify(Fetch(s)) == None
    ensures Process(s, check) == s
  {
  }

  /** The loop of `decode_instruction` over `format_map[]`: the first width
      whose masked key the loaded table holds decides the handler. */
  method ProbeLengths(table: HashMap<Handler>, instr: bv32) returns (h: Option<Handler>)
    requires table.Valid()
    requires forall l, o :: table.Lookup(l, o) == Loaded(Puts(), l, o)
    ensures h == Classify(instr)
  {
    var probes := Probes(instr);
    var k := 0;
    while k < |Lengths|
      invariant 0 <= k <= |Lengths|
      invariant FirstHit(Puts(), probes[k..]) == Classify(instr)
      modifies {}
    {
      var len := Lengths[k];
      var key := MaskedKey(instr, len);
      assert probes[k] == Probe(len, key);
      var handler := table.Get(len, key);
      if handler != None {
        return handler;
      }
      assert probes[k..][1..] == probes[k + 1..];
      k := k + 1;
    }
    return None;
  }

  /** The loop of `init_opcode_map`: every entry put in order into an
      empty map. */
  method LoadEntries(table: HashMap<Handler>)
    requires table.Valid() && forall l, o :: table.Lookup(l, o) == None
    modifies table.buckets
    ensures table.Valid()
    ensures forall l, o :: table.Lookup(l, o) == Loaded(Puts(), l, o)
  {
    var i := 0;
    while i < |Entries|
      invariant 0 <= i <= |Entries|
      invariant table.Valid()
      invariant forall l, o :: table.Lookup(l, o) == Loaded(Puts()[..i], l, o)
    {
      var e := Entries[i];
      var len := e.length;
      var key := Key(e.pattern, len);
      assert Puts()[i] == PutOf(e);
      table.Put(len, key, e.handler);
      forall l, o
        ensures table.Lookup(l, o) == Loaded(Puts()[..i + 1], l, o)
      {
        LoadedStep(Puts(), i, l, o);
      }
      i := i + 1;
    }
    assert Puts()[..i] == Puts();
  }

  /** The global `opcode_map` of src/sim1.c; `branch_taken` lives in the
      machine. */
  class Engine {
    var opcodeMap: HashMap?<Handler>

    /** Once created, the map holds exactly what the initialisation loop
        puts into it. */
    ghost predicate Valid()
      reads this, opcodeMap, if opcodeMap != null then {opcodeMap.buckets} else {}
    {
      opcodeMap != null ==>
        opcodeMap.Valid() && forall l, o :: opcodeMap.Lookup(l, o) == Loaded(Puts(), l, o)
    }

    constructor ()
      ensures Valid() && opcodeMap == null
    {
      opcodeMap := null;
    }

    /** `init_opcode_map`: creates and fills the map once, putting each
        entry under its length and the top `length` bits of its pattern; a
        later call returns at once and keeps the same map. */
    method InitOpcodeMap()
      requires Valid()
      modifies this
      ensures Valid() && opcodeMap != null
      ensures old(opcodeMap) != null ==> opcodeMap == old(opcodeMap)
      ensures old(opcodeMap) == null ==> fresh(opcodeMap) && fresh(opcodeMap.buckets)
    {
      if opcodeMap != null {
        return;
      }
      var table := new HashMap<Handler>();
      LoadEntries(table);
      opcodeMap := table;
    }

    /** `decode_instruction`: loads the map if needed, then returns the
        handler of the first width whose key is in the map. */
    method DecodeInstruction(instr: bv32) returns (h: Option<Handler>)
      requires Valid()
      modifies this
      ensures Valid() && opcodeMap != null
      ensures old(opcodeMap) != null ==> opcodeMap == old(opcodeMap)
      ensures h == Classify(instr)
    {
      if opcodeMap == null {
        InitOpcodeMap();
      }
      h := ProbeLengths(opcodeMap, instr);
    }

    /** `process_instruction`: fetch, classify, clear `branch_taken` and run
        the handler, or stop on an unsupported word. */
    method ProcessInstruction(m: Machine, check: bv32 -> bool) returns (r: Outcome)
      requires Valid() && ProcessDefined(m.State())
      modifies this, m
      ensures Valid()
      ensures m.State() == Process(old(m.State()), check)
      ensures r == (match Classify(Fetch(old(m.State())))
                    case Some(h) => Executed(h)
                    case None => Unsupported(Fetch(old(m.State()))))
    {
      var instr := MemRead32(m.mem, m.current.pc);
      var handler := DecodeInstruction(instr);
      if handler.Some? {
        m.branchTaken := false;
        Dispatch(m, handler.value, instr, check);
        r := Executed(handler.value);
      } else {
        r := Unsupported(instr);
      }
    }
  }
}
