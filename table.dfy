/** What an opcode table built by a run of `hashmap_put` calls holds, and
    what a classifier that probes it at several widths returns. Both the
    modular engine (old/sim3.c) and the monolithic engine (src/sim1.c) fill
    a fresh map this way and probe it this way; they differ only in their
    entries and in how a word is cut into keys. */
module Table {
  import opened Hashmap

  /** `InstructionEntry`: a bit pattern, the number of leading bits it
      stands for and the handler for the words that carry it. */
  datatype InstructionEntry<+H> = InstructionEntry(pattern: bv32, length: bv32, handler: H)

  /** One probe of the map: a width and the key the word gives for it. */
  datatype Probe = Probe(length: bv32, opcode: bv32)

  /** The value under `(length, opcode)` after putting `puts` in order into
      an empty map: the last put for the key wins. */
  function Loaded<V>(puts: seq<Entry<V>>, length: bv32, opcode: bv32): Option<V> {
    if |puts| == 0 then None
    else if HasKey(puts[|puts| - 1], length, opcode) then Some(puts[|puts| - 1].value)
    else Loaded(puts[..|puts| - 1], length, opcode)
  }

  /** No key is put twice. */
  predicate DistinctPuts<V>(puts: seq<Entry<V>>) {
    forall i, j :: 0 <= i < j < |puts| ==> !HasKey(puts[j], puts[i].length, puts[i].opcode)
  }

  /** When no key is put twice, every put can be got back. */
  lemma {:induction false} LoadedDistinct<V>(puts: seq<Entry<V>>, i: int)
    requires DistinctPuts(puts) && 0 <= i < |puts|
    ensures Loaded(puts, puts[i].length, puts[i].opcode) == Some(puts[i].value)
  {
    var n := |puts| - 1;
    if i < n {
      assert !HasKey(puts[n], puts[i].length, puts[i].opcode);
      assert DistinctPuts(puts[..n]);
      LoadedDistinct(puts[..n], i);
    }
  }

  /** A key that no put uses is absent. */
  lemma {:induction false} LoadedMissing<V>(puts: seq<Entry<V>>, length: bv32, opcode: bv32)
    requires forall i :: 0 <= i < |puts| ==> !HasKey(puts[i], length, opcode)
    ensures Loaded(puts, length, opcode) == None
  {
    if |puts| > 0 {
      LoadedMissing(puts[..|puts| - 1], length, opcode);
    }
  }

  /** The loop of `decode_instruction`: the value of the first probe that
      hits, or `None` when every probe misses. */
  function FirstHit<V>(puts: seq<Entry<V>>, probes: seq<Probe>): Option<V> {
    if |probes| == 0 then None
    else if Loaded(puts, probes[0].length, probes[0].opcode) != None then Loaded(puts, probes[0].length, probes[0].opcode)
    else FirstHit(puts, probes[1..])
  }

  /** The probe that hits first decides the result. */
  lemma {:induction false} FirstHitAt<V>(puts: seq<Entry<V>>, probes: seq<Probe>, i: int)
    requires 0 <= i < |probes| && Loaded(puts, probes[i].length, probes[i].opcode) != None
    requires forall j :: 0 <= j < i ==> Loaded(puts, probes[j].length, probes[j].opcode) == None
    ensures FirstHit(puts, probes) == Loaded(puts, probes[i].length, probes[i].opcode)
  {
    if i > 0 {
      assert Loaded(puts, probes[0].length, probes[0].opcode) == None;
      FirstHitAt(puts, probes[1..], i - 1);
    }
  }

  /** The classifier misses exactly when every probe misses. */
  lemma {:induction false} FirstHitMisses<V>(puts: seq<Entry<V>>, probes: seq<Probe>)
    ensures FirstHit(puts, probes) == None <==>
      forall j :: 0 <= j < |probes| ==> Loaded(puts, probes[j].length, probes[j].opcode) == None
  {
    if |probes| > 0 {
      FirstHitMisses(puts, probes[1..]);
      assert forall j :: 1 <= j < |probes| ==> probes[j] == probes[1..][j - 1];
    }
  }

  /** One more put: the new entry decides its own key, every other key
      keeps its value. */
  lemma LoadedStep<V>(puts: seq<Entry<V>>, i: int, length: bv32, opcode: bv32)
    requires 0 <= i < |puts|
    ensures Loaded(puts[..i + 1], length, opcode) ==
      if HasKey(puts[i], length, opcode) then Some(puts[i].value) else Loaded(puts[..i], length, opcode)
  {
    assert puts[..i + 1][..i] == puts[..i];
  }
}
