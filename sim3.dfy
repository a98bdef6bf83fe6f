/** The driver of the modular engine (old/sim3.c): the opcode table keyed by
    `(length, pattern)`, the classifier that probes it at widths 22, 11, 10,
    8 and 6, and `process_instruction`, which fetches, classifies and runs
    one handler of src/handlers.c. */
module Sim3 {
  import opened Shell
  import opened Hashmap
  import opened Table
  import opened Handlers
  import opened HandlerProperties

  /** The rows of the `entries[]` array of `init_opcode_map`, by index: each
      pattern is the key already cut to its width and left-aligned to a
      multiple of four bits. */
  function EntryAt(i: nat): InstructionEntry<Handler>
    requires i < 24
  {
    match i
    case 0 => InstructionEntry(0xD61F00, 22, Br)
    case 1 => InstructionEntry(0x380, 11, Sturb)
    case 2 => InstructionEntry(0x384, 11, Ldurb)
    case 3 => InstructionEntry(0x780, 11, Sturh)
    case 4 => InstructionEntry(0x784, 11, Ldurh)
    case 5 => InstructionEntry(0x8B0, 11, AddReg)
    case 6 => InstructionEntry(0x9B0, 11, Mul)
    case 7 => InstructionEntry(0xF80, 11, Stur)
    case 8 => InstructionEntry(0xF84, 11, Ldur)
    case 9 => InstructionEntry(0xD28, 11, Movz)
    case 10 => InstructionEntry(0xD34, 10, Shift)
    case 11 => InstructionEntry(0x54, 8, BCond)
    case 12 => InstructionEntry(0x91, 8, AddImm)
    case 13 => InstructionEntry(0xAA, 8, Orr)
    case 14 => InstructionEntry(0xAB, 8, AddsReg)
    case 15 => InstructionEntry(0xB1, 8, AddsImm)
    case 16 => InstructionEntry(0xB4, 8, Cbz)
    case 17 => InstructionEntry(0xB5, 8, Cbnz)
    case 18 => InstructionEntry(0xCA, 8, Eor)
    case 19 => InstructionEntry(0xEA, 8, Ands)
    case 20 => InstructionEntry(0xEB, 8, SubsReg)
    case 21 => InstructionEntry(0xF1, 8, SubsImm)
    case 22 => InstructionEntry(0xD4, 8, Hlt)
    case _ => InstructionEntry(0x14, 6, B)
  }

  /** `entries[]`, in source order. */
  const Entries: seq<InstructionEntry<Handler>> := seq(24, i requires 0 <= i < 24 => EntryAt(i))

  /** The `hashmap_put` call the initialisation loop makes for entry `e`. */
  function PutOf(e: InstructionEntry<Handler>): Entry<Handler> {
    Entry(e.length, e.pattern, e.handler)
  }

  /** The puts of the initialisation loop, in order. */
  function Puts(): seq<Entry<Handler>> {
    seq(24, i requires 0 <= i < 24 => PutOf(EntryAt(i)))
  }

  /** `lengths[]`: the widths `decode_instruction` tries, widest first. */
  const Lengths: seq<bv32> := [22, 11, 10, 8, 6]

  /** The key probed at width `len`: the top `len` bits of the word, shifted
      left by `(32 - len) % 4` so that it lines up like the table's patterns. */
  function Key(instr: bv32, len: bv32): bv32
    requires 0 < len <= 32
  {
    (instr >> (32 - len)) << ((32 - len) % 4)
  }

  /** The probes `decode_instruction` makes for `instr`, in order. */
  function Probes(instr: bv32): seq<Probe> {
    seq(5, k requires 0 <= k < 5 => Probe(Lengths[k], Key(instr, Lengths[k])))
  }

  /** The handler `decode_instruction` returns once the table is loaded. */
  function Classify(instr: bv32): Option<Handler> {
    FirstHit(Puts(), Probes(instr))
  }

  // ---------------------------------------------------------------------
  // The table
  // ---------------------------------------------------------------------

  lemma DistinctRows0()
    ensures forall i, j | 0 <= i < 6 && i < j < |Puts()| :: !HasKey(Puts()[j], Puts()[i].length, Puts()[i].opcode)
  {
  }

  lemma DistinctRows1()
    ensures forall i, j | 6 <= i < 12 && i < j < |Puts()| :: !HasKey(Puts()[j], Puts()[i].length, Puts()[i].opcode)
  {
  }

  lemma DistinctRows2()
    ensures forall i, j | 12 <= i < 18 && i < j < |Puts()| :: !HasKey(Puts()[j], Puts()[i].length, Puts()[i].opcode)
  {
  }

  lemma DistinctRows3()
    ensures forall i, j | 18 <= i < j < |Puts()| :: !HasKey(Puts()[j], Puts()[i].length, Puts()[i].opcode)
  {
  }

  /** The 24 `(length, pattern)` pairs are pairwise distinct. */
  lemma EntriesDistinct()
    ensures DistinctPuts(Puts())
  {
    DistinctRows0();
    DistinctRows1();
    DistinctRows2();
    DistinctRows3();
  }

  /** Once loaded, the table returns every entry's own handler for its own
      key. */
  lemma EntryRetrievable(i: int)
    requires 0 <= i < |Entries|
    ensures Loaded(Puts(), Entries[i].length, Entries[i].pattern) == Some(Entries[i].handler)
  {
    EntriesDistinct();
    LoadedDistinct(Puts(), i);
  }

  // ---------------------------------------------------------------------
  // Classification
  // ---------------------------------------------------------------------

  /** The 22-bit key of a word whose top 22 bits are those of `0xD61F0000`. */
  lemma BrKey(instr: bv32)
    requires instr >> 10 == 0xD61F0000 >> 10
    ensures Key(instr, 22) == 0xD61F00
  {
  }

  /** Every word whose top 22 bits are those of `0xD61F0000` (so any
      `BR Xn`, such as `0xD61F03C0`) classifies to `handle_br`: the widest
      probe hits first. */
  lemma BrWordsClassify(instr: bv32)
    requires instr >> 10 == 0xD61F0000 >> 10
    ensures Classify(instr) == Some(Br)
  {
    BrKey(instr);
    EntryRetrievable(0);
    FirstHitAt(Puts(), Probes(instr), 0);
  }

  /** A word whose top eleven bits are not those of `BR` misses the 22-bit
      entry. */
  lemma WideProbeMisses(instr: bv32)
    requires instr >> 21 != 0xD61F0000 >> 21
    ensures Loaded(Puts(), 22, Key(instr, 22)) == None
  {
    var k := Key(instr, 22);
    assert k != 0xD61F00 by {
      assert k >> 13 == instr >> 21;
    }
    LoadedMissing(Puts(), 22, k);
  }

  /** `MOVZ` with `hw = 0` (top eleven bits `0x694`) classifies to
      `handle_movz`. */
  lemma MovzHw0Classifies(instr: bv32)
    requires instr >> 21 == 0x694
    ensures Classify(instr) == Some(Movz)
  {
    WideProbeMisses(instr);
    assert Key(instr, 11) == 0xD28;
    EntryRetrievable(9);
    FirstHitAt(Puts(), Probes(instr), 1);
  }

  /** `MOVZ` with `hw = 1` (top eleven bits `0x695`, as in `0xD2A00000`)
      finds no entry at any width: the table keys `MOVZ` at eleven bits, so
      only `hw = 0` words match. */
  lemma MovzHw1Misses(instr: bv32)
    requires instr >> 21 == 0x695
    ensures Classify(instr) == None
  {
    WideProbeMisses(instr);
    var p := Probes(instr);
    assert p[1] == Probe(11, 0xD2A);
    assert p[2] == Probe(10, 0xD28);
    assert p[3] == Probe(8, 0xD2);
    assert p[4] == Probe(6, 0xD0);
    LoadedMissing(Puts(), 11, 0xD2A);
    LoadedMissing(Puts(), 10, 0xD28);
    LoadedMissing(Puts(), 8, 0xD2);
    LoadedMissing(Puts(), 6, 0xD0);
    FirstHitMisses(Puts(), p);
  }

  // ---------------------------------------------------------------------
  // Processing one word
  // ---------------------------------------------------------------------

  /** What `process_instruction` did: ran a handler, or met a word no entry
      matches (where the C code calls `exit(1)`). */
  datatype Outcome = Executed(handler: Handler) | Unsupported(instr: bv32)

  /** The word at `CURRENT_STATE.PC`. */
  function Fetch(s: Sim): bv32 {
    MemRead32(s.mem, s.current.pc)
  }

  /** The handler that will run stays inside what C defines. */
  predicate ProcessDefined(s: Sim) {
    Classify(Fetch(s)).Some? ==> Defined(Classify(Fetch(s)).value, s.(branchTaken := false), Fetch(s))
  }

  /** The state after `process_instruction`: `branch_taken` cleared and the
      handler run on a hit; nothing changed on a miss. */
  function Process(s: Sim): Sim
    requires ProcessDefined(s)
  {
    match Classify(Fetch(s))
    case Some(h) => Execute(h, s.(branchTaken := false), Fetch(s))
    case None => s
  }

  /** After any handler that is not a conditional branch, `branch_taken` is
      clear, whatever it was before: it is reset before the handler runs. */
  lemma ProcessClearsLatch(s: Sim)
    requires ProcessDefined(s)
    requires Classify(Fetch(s)).Some? && !SetsLatch(Classify(Fetch(s)).value)
    ensures !Process(s).branchTaken
  {
    ExecuteFrame(Classify(Fetch(s)).value, s.(branchTaken := false), Fetch(s));
  }

  /** A word no entry matches leaves the machine as it was. */
  lemma ProcessMissChangesNothing(s: Sim)
    requires Classify(Fetch(s)) == None
    ensures Process(s) == s
  {
  }

  /** The loop of `decode_instruction` over `lengths[]`: the first width
      whose key the loaded table holds decides the handler. */
  method ProbeLengths(table: HashMap<Handler>, instr: bv32) returns (h: Option<Handler>)
    requires table.Valid()
    requires forall l, o :: table.Lookup(l, o) == Loaded(Puts(), l, o)
    ensures h == Classify(instr)
  {
    var probes := Probes(instr);
    var k := 0;
    while k < |Lengths|
      invariant 0 <= k <= |Lengths|
      invariant FirstHit(Puts(), probes[k..]) == Classify(instr)
      modifies {}
    {
      var len := Lengths[k];
      var key := Key(instr, len);
      assert probes[k] == Probe(len, key);
      var handler := table.Get(len, key);
      if handler != None {
        return handler;
      }
      assert probes[k..][1..] == probes[k + 1..];
      k := k + 1;
    }
    return None;
  }

  /** The loop of `init_opcode_map`: every entry put in order into an
      empty map. */
  method LoadEntries(table: HashMap<Handler>)
    requires table.Valid() && forall l, o :: table.Lookup(l, o) == None
    modifies table.buckets
    ensures table.Valid()
    ensures forall l, o :: table.Lookup(l, o) == Loaded(Puts(), l, o)
  {
    var i := 0;
    while i < |Entries|
      invariant 0 <= i <= |Entries|
      invariant table.Valid()
      invariant forall l, o :: table.Lookup(l, o) == Loaded(Puts()[..i], l, o)
    {
      var e := Entries[i];
      assert Puts()[i] == PutOf(e);
      table.Put(e.length, e.pattern, e.handler);
      forall l, o
        ensures table.Lookup(l, o) == Loaded(Puts()[..i + 1], l, o)
      {
        LoadedStep(Puts(), i, l, o);
      }
      i := i + 1;
    }
    assert Puts()[..i] == Puts();
  }

  /** The globals `opcode_map` of old/sim3.c; `branch_taken` lives in the
      machine. */
  class Engine {
    var opcodeMap: HashMap?<Handler>

    /** Once created, the map holds exactly what the initialisation loop
        puts into it. */
    ghost predicate Valid()
      reads this, opcodeMap, if opcodeMap != null then {opcodeMap.buckets} else {}
    {
      opcodeMap != null ==>
        opcodeMap.Valid() && forall l, o :: opcodeMap.Lookup(l, o) == Loaded(Puts(), l, o)
    }

    constructor ()
      ensures Valid() && opcodeMap == null
    {
      opcodeMap := null;
    }

    /** `init_opcode_map`: creates and fills the map once; a later call
        returns at once and keeps the same map. */
    method InitOpcodeMap()
      requires Valid()
      modifies this
      ensures Valid() && opcodeMap != null
      ensures old(opcodeMap) != null ==> opcodeMap == old(opcodeMap)
      ensures old(opcodeMap) == null ==> fresh(opcodeMap) && fresh(opcodeMap.buckets)
    {
      if opcodeMap != null {
        return;
      }
      var table := new HashMap<Handler>();
      LoadEntries(table);
      opcodeMap := table;
    }

    /** `decode_instruction`: loads the map if needed, then returns the
        handler of the first width whose key is in the map. */
    method DecodeInstruction(instr: bv32) returns (h: Option<Handler>)
      requires Valid()
      modifies this
      ensures Valid() && opcodeMap != null
      ensures old(opcodeMap) != null ==> opcodeMap == old(opcodeMap)
      ensures h == Classify(instr)
    {
      if opcodeMap == null {
        InitOpcodeMap();
      }
      h := ProbeLengths(opcodeMap, instr);
    }

    /** `process_instruction`: fetch, classify, clear `branch_taken` and run
        the handler, or stop on an unsupported word. */
    method ProcessInstruction(m: Machine) returns (r: Outcome)
      requires Valid() && ProcessDefined(m.State())
      modifies this, m
      ensures Valid()
      ensures m.State() == Process(old(m.State()))
      ensures r == (match Classify(Fetch(old(m.State())))
                    case Some(h) => Executed(h)
                    case None => Unsupported(Fetch(old(m.State()))))
    {
      var instr := MemRead32(m.mem, m.current.pc);
      var handler := DecodeInstruction(instr);
      if handler.Some? {
        m.branchTaken := false;
        Dispatch(m, handler.value, instr);
        r := Executed(handler.value);
      } else {
        r := Unsupported(instr);
      }
    }
  }
}
