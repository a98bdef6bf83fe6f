/** The chained hash map from `(length, opcode)` pairs to handlers that backs
    the opcode tables (src/hashmap.c). A bucket's linked list of `HashEntry`
    records is a sequence, head first; a get that finds nothing returns `None`
    where the C code returns `NULL`. */
module Hashmap {
  datatype Option<+T> = None | Some(value: T)

  /** A `HashEntry` without its `next` link. */
  datatype Entry<+V> = Entry(length: bv32, opcode: bv32, value: V)

  /** One bucket: the entries reachable from `buckets[b]`, in list order. */
  type Chain<V> = seq<Entry<V>>

  /** The bucket count `hashmap_create` chooses. */
  const InitialSize: int := 101

  /** `hash_function`: `((length * 31) ^ opcode) % size`, where the product
      wraps in `uint32_t` and `size` is converted to `unsigned`. */
  function Hash(size: int, length: bv32, opcode: bv32): (r: int)
    requires size > 0
    ensures 0 <= r < size
  {
    ((length * 31) ^ opcode) as int % size
  }

  predicate HasKey<V>(e: Entry<V>, length: bv32, opcode: bv32) {
    e.length == length && e.opcode == opcode
  }

  /** What `hashmap_get`'s walk down a chain returns. */
  function Find<V>(chain: Chain<V>, length: bv32, opcode: bv32): Option<V> {
    if |chain| == 0 then None
    else if HasKey(chain[0], length, opcode) then Some(chain[0].value)
    else Find(chain[1..], length, opcode)
  }

  /** The position of the first entry with the key, or `|chain|` if none. */
  function IndexOf<V>(chain: Chain<V>, length: bv32, opcode: bv32): (i: nat)
    ensures i <= |chain|
    ensures i < |chain| ==> HasKey(chain[i], length, opcode)
    ensures forall j :: 0 <= j < i ==> !HasKey(chain[j], length, opcode)
  {
    if |chain| == 0 then 0
    else if HasKey(chain[0], length, opcode) then 0
    else 1 + IndexOf(chain[1..], length, opcode)
  }

  /** What `hashmap_put` does to the chain of the key's bucket: overwrite the
      value of the first entry with that key in place, or else prepend a new
      entry. */
  function ChainPut<V>(chain: Chain<V>, length: bv32, opcode: bv32, value: V): Chain<V> {
    var i := IndexOf(chain, length, opcode);
    if i < |chain| then chain[i := chain[i].(value := value)]
    else [Entry(length, opcode, value)] + chain
  }

  /** No two entries of a chain share a key. */
  predicate DistinctKeys<V>(chain: Chain<V>) {
    forall i, j :: 0 <= i < j < |chain| ==> !HasKey(chain[j], chain[i].length, chain[i].opcode)
  }

  /** Every entry of bucket `b` hashes to `b`. */
  predicate InBucket<V>(chain: Chain<V>, size: int, b: int)
    requires size > 0
  {
    forall i :: 0 <= i < |chain| ==> Hash(size, chain[i].length, chain[i].opcode) == b
  }

  /** The walk finds the entry at the first matching position. */
  lemma {:induction false} FindAtIndex<V>(chain: Chain<V>, length: bv32, opcode: bv32)
    ensures Find(chain, length, opcode) ==
      if IndexOf(chain, length, opcode) < |chain| then Some(chain[IndexOf(chain, length, opcode)].value) else None
  {
    if |chain| > 0 && !HasKey(chain[0], length, opcode) {
      FindAtIndex(chain[1..], length, opcode);
    }
  }

  /** A get for the key just put returns the value put. */
  lemma FindAfterPut<V>(chain: Chain<V>, length: bv32, opcode: bv32, value: V)
    ensures Find(ChainPut(chain, length, opcode, value), length, opcode) == Some(value)
  {
    var r := ChainPut(chain, length, opcode, value);
    var i := IndexOf(chain, length, opcode);
    FindAtIndex(r, length, opcode);
    if i < |chain| {
      IndexOfIs(r, length, opcode, i);
    } else {
      IndexOfIs(r, length, opcode, 0);
    }
  }

  /** The first matching position is the only one with no match before it. */
  lemma IndexOfIs<V>(chain: Chain<V>, length: bv32, opcode: bv32, i: nat)
    requires i < |chain| && HasKey(chain[i], length, opcode)
    requires forall j :: 0 <= j < i ==> !HasKey(chain[j], length, opcode)
    ensures IndexOf(chain, length, opcode) == i
  {
  }

  /** A put leaves what a get returns for every other key. */
  lemma {:induction false} FindOtherAfterPut<V>(chain: Chain<V>, length: bv32, opcode: bv32, value: V, length': bv32, opcode': bv32)
    requires length' != length || opcode' != opcode
    ensures Find(ChainPut(chain, length, opcode, value), length', opcode') == Find(chain, length', opcode')
  {
    var r := ChainPut(chain, length, opcode, value);
    if IndexOf(chain, length, opcode) < |chain| {
      FindKeysUnchanged(chain, r, length', opcode');
    } else {
      assert r[1..] == chain;
    }
  }

  /** Two chains that agree on every key and on the values of the entries
      with key `(length, opcode)` give the same get for that key. */
  lemma {:induction false} FindKeysUnchanged<V>(chain: Chain<V>, r: Chain<V>, length: bv32, opcode: bv32)
    requires |r| == |chain|
    requires forall j :: 0 <= j < |chain| ==> r[j].length == chain[j].length && r[j].opcode == chain[j].opcode
    requires forall j :: 0 <= j < |chain| && HasKey(chain[j], length, opcode) ==> r[j] == chain[j]
    ensures Find(r, length, opcode) == Find(chain, length, opcode)
  {
    if |chain| > 0 {
      FindKeysUnchanged(chain[1..], r[1..], length, opcode);
    }
  }

  /** Putting a key already present changes only that entry's value: the
      chain keeps its length and its keys. */
  lemma PutExistingOverwrites<V>(chain: Chain<V>, length: bv32, opcode: bv32, value: V)
    requires Find(chain, length, opcode) != None
    ensures |ChainPut(chain, length, opcode, value)| == |chain|
    ensures forall j :: 0 <= j < |chain| ==>
      ChainPut(chain, length, opcode, value)[j].length == chain[j].length &&
      ChainPut(chain, length, opcode, value)[j].opcode == chain[j].opcode
  {
    FindAtIndex(chain, length, opcode);
  }

  /** Putting a new key prepends one entry to the chain. */
  lemma PutNewPrepends<V>(chain: Chain<V>, length: bv32, opcode: bv32, value: V)
    requires Find(chain, length, opcode) == None
    ensures ChainPut(chain, length, opcode, value) == [Entry(length, opcode, value)] + chain
  {
    FindAtIndex(chain, length, opcode);
  }

  /** Keys within a chain stay distinct across a put. */
  lemma PutKeepsDistinct<V>(chain: Chain<V>, length: bv32, opcode: bv32, value: V)
    requires DistinctKeys(chain)
    ensures DistinctKeys(ChainPut(chain, length, opcode, value))
  {
    var r := ChainPut(chain, length, opcode, value);
    var i := IndexOf(chain, length, opcode);
    if i == |chain| {
      forall a, b | 0 <= a < b < |r|
        ensures !HasKey(r[b], r[a].length, r[a].opcode)
      {
        if a > 0 {
          assert r[a] == chain[a - 1] && r[b] == chain[b - 1];
        } else {
          assert r[b] == chain[b - 1];
        }
      }
    }
  }

  /** A put into the key's own bucket keeps every entry there hashing to it. */
  lemma PutKeepsBucket<V>(chain: Chain<V>, size: int, b: int, length: bv32, opcode: bv32, value: V)
    requires size > 0 && Hash(size, length, opcode) == b
    requires InBucket(chain, size, b)
    ensures InBucket(ChainPut(chain, length, opcode, value), size, b)
  {
    var r := ChainPut(chain, length, opcode, value);
    if IndexOf(chain, length, opcode) == |chain| {
      assert forall j :: 1 <= j < |r| ==> r[j] == chain[j - 1];
    }
  }

  /** A `HashMap`: a fixed array of `size` chains. */
  class HashMap<V> {
    var buckets: array<Chain<V>>
    var size: int

    /** The bucket array has `size` chains, every entry sits in the bucket
        its key hashes to, and no chain repeats a key. */
    ghost predicate Valid()
      reads this, buckets
    {
      buckets.Length == size && size > 0 &&
      forall b :: 0 <= b < size ==> InBucket(buckets[b], size, b) && DistinctKeys(buckets[b])
    }

    /** What `hashmap_get(map, length, opcode)` returns. */
    function Lookup(length: bv32, opcode: bv32): Option<V>
      reads this, buckets
      requires Valid()
    {
      Find(buckets[Hash(size, length, opcode)], length, opcode)
    }

    /** `hashmap_create`: 101 empty buckets, so every get misses. */
    constructor ()
      ensures Valid() && size == InitialSize
      ensures fresh(buckets)
      ensures forall b :: 0 <= b < size ==> buckets[b] == []
      ensures forall length, opcode :: Lookup(length, opcode) == None
    {
      size := InitialSize;
      buckets := new Chain<V>[InitialSize](_ => []);
    }

    /** `hashmap_get`: walks the key's chain and returns the first match. */
    method Get(length: bv32, opcode: bv32) returns (r: Option<V>)
      requires Valid()
      ensures r == Lookup(length, opcode)
    {
      var chain := buckets[Hash(size, length, opcode)];
      var k := 0;
      while k < |chain|
        invariant 0 <= k <= |chain|
        invariant Find(chain[k..], length, opcode) == Find(chain, length, opcode)
      {
        if chain[k].length == length && chain[k].opcode == opcode {
          return Some(chain[k].value);
        }
        assert chain[k..][1..] == chain[k + 1..];
        k := k + 1;
      }
      return None;
    }

    /** `hashmap_put`: overwrites the value of an entry with the same key in
        place, or else prepends a new entry to the key's chain. Gets for the
        key then return `value`, and gets for every other key are unchanged. */
    method Put(length: bv32, opcode: bv32, value: V)
      requires Valid()
      modifies buckets
      ensures Valid()
      ensures buckets[Hash(size, length, opcode)] == ChainPut(old(buckets[Hash(size, length, opcode)]), length, opcode, value)
      ensures forall b :: 0 <= b < size && b != Hash(size, length, opcode) ==> buckets[b] == old(buckets[b])
      ensures Lookup(length, opcode) == Some(value)
      ensures forall length', opcode' :: length' != length || opcode' != opcode ==>
        Lookup(length', opcode') == old(Lookup(length', opcode'))
    {
      var bucket := Hash(size, length, opcode);
      var chain := buckets[bucket];
      var k := 0;
      while k < |chain|
        invariant 0 <= k <= |chain|
        invariant forall j :: 0 <= j < k ==> !HasKey(chain[j], length, opcode)
      {
        if chain[k].length == length && chain[k].opcode == opcode {
          IndexOfIs(chain, length, opcode, k);
          buckets[bucket] := chain[k := chain[k].(value := value)];
          PutFacts(chain, bucket, length, opcode, value);
          return;
        }
        k := k + 1;
      }
      assert IndexOf(chain, length, opcode) == |chain|;
      buckets[bucket] := [Entry(length, opcode, value)] + chain;
      PutFacts(chain, bucket, length, opcode, value);
    }

    /** The map-level facts of a put, from the chain-level lemmas. */
    lemma PutFacts(chain: Chain<V>, bucket: int, length: bv32, opcode: bv32, value: V)
      requires buckets.Length == size && size > 0 && bucket == Hash(size, length, opcode)
      requires InBucket(chain, size, bucket) && DistinctKeys(chain)
      requires buckets[bucket] == ChainPut(chain, length, opcode, value)
      ensures InBucket(buckets[bucket], size, bucket) && DistinctKeys(buckets[bucket])
      ensures Find(buckets[bucket], length, opcode) == Some(value)
      ensures forall length', opcode' :: length' != length || opcode' != opcode ==>
        Find(buckets[bucket], length', opcode') == Find(chain, length', opcode')
    {
      PutKeepsBucket(chain, size, bucket, length, opcode, value);
      PutKeepsDistinct(chain, length, opcode, value);
      FindAfterPut(chain, length, opcode, value);
      forall length', opcode' | length' != length || opcode' != opcode
        ensures Find(buckets[bucket], length', opcode') == Find(chain, length', opcode')
      {
        FindOtherAfterPut(chain, length, opcode, value, length', opcode');
      }
    }
  }
}
