/** The Bloom filter: a packed bit array of `size` bits, probed at `numHashes`
    positions derived from two MurmurHash3 values of the item by
    Kirsch-Mitzenmacher double hashing. */
module Bloom {
  import opened Murmur

  /** The seeds of the two base hashes. */
  const Seed1: bv32 := 0x9747b28c
  const Seed2: bv32 := 0x3c6ef372

  /** 2^32: the probe arithmetic wraps around as `uint32_t` does. */
  const Word: int := 0x1_0000_0000

  /** Bytes allocated for a filter of `size` bits. */
  function ByteCount(size: nat): nat
  {
    (size + 7) / 8
  }

  // ---------------------------------------------------------------------------
  // Bits packed into bytes

  /** The mask `1 << b` selecting bit `b` of a byte. */
  function Mask(b: nat): bv8
    requires b < 8
  {
    1 << b
  }

  /** Bit `p` of the packed array: bit `p % 8` of byte `p / 8`. */
  predicate IsSet(bytes: seq<bv8>, p: nat)
    requires p / 8 < |bytes|
  {
    bytes[p / 8] & Mask(p % 8) != 0
  }

  /** Or-ing a mask into a byte sets that bit and leaves the other seven as they were. */
  lemma OrMask(x: bv8, c: nat, d: nat)
    requires c < 8 && d < 8
    ensures ((x | Mask(c)) & Mask(d) != 0) <==> (x & Mask(d) != 0 || c == d)
  {
  }

  /** Two bytes that agree on all eight bits are equal. */
  lemma ByteExtensionality(x: bv8, y: bv8)
    requires forall c :: 0 <= c < 8 ==> (x & Mask(c) != 0 <==> y & Mask(c) != 0)
    ensures x == y
  {
    assert x & Mask(0) != 0 <==> y & Mask(0) != 0;
    assert x & Mask(1) != 0 <==> y & Mask(1) != 0;
    assert x & Mask(2) != 0 <==> y & Mask(2) != 0;
    assert x & Mask(3) != 0 <==> y & Mask(3) != 0;
    assert x & Mask(4) != 0 <==> y & Mask(4) != 0;
    assert x & Mask(5) != 0 <==> y & Mask(5) != 0;
    assert x & Mask(6) != 0 <==> y & Mask(6) != 0;
    assert x & Mask(7) != 0 <==> y & Mask(7) != 0;
  }

  /** Two bit arrays of the same length that agree on every bit are equal. */
  lemma BitsExtensionality(a: seq<bv8>, b: seq<bv8>)
    requires |a| == |b|
    requires forall q: nat :: q / 8 < |a| ==> (IsSet(a, q) <==> IsSet(b, q))
    ensures a == b
  {
    forall i | 0 <= i < |a|
      ensures a[i] == b[i]
    {
      forall c | 0 <= c < 8
        ensures a[i] & Mask(c) != 0 <==> b[i] & Mask(c) != 0
      {
        var q: nat := 8 * i + c;
        assert q / 8 == i && q % 8 == c;
        assert IsSet(a, q) <==> IsSet(b, q);
      }
      ByteExtensionality(a[i], b[i]);
    }
  }

  /** `bit_array[p / 8] |= 1 << (p % 8)`. */
  function SetBit(bytes: seq<bv8>, p: nat): (r: seq<bv8>)
    requires p / 8 < |bytes|
    ensures |r| == |bytes|
  {
    bytes[p / 8 := bytes[p / 8] | Mask(p % 8)]
  }

  /** Setting bit `p` sets exactly bit `p`: every other bit keeps its value. */
  lemma SetBitBits(bytes: seq<bv8>, p: nat, q: nat)
    requires p / 8 < |bytes| && q / 8 < |bytes|
    ensures IsSet(SetBit(bytes, p), q) <==> IsSet(bytes, q) || q == p
  {
    if q / 8 == p / 8 {
      OrMask(bytes[p / 8], p % 8, q % 8);
      assert q == p <==> q % 8 == p % 8;
    }
  }

  // ---------------------------------------------------------------------------
  // Probe positions

  /** The probe `i`: `(h1 + i * h2) % size`, where the sum and the product wrap
      at 2^32 because they are computed in `uint32_t`. */
  function Probe(h1: bv32, h2: bv32, i: nat, size: nat): (p: nat)
    requires size > 0
    ensures p < size && p / 8 < ByteCount(size)
  {
    ((h1 as int + i * (h2 as int)) % Word) % size
  }

  /** The first `k` probes for the base hashes `h1` and `h2`. */
  function Probes(h1: bv32, h2: bv32, k: nat, size: nat): (ps: seq<nat>)
    requires size > 0
    ensures |ps| == k
    ensures forall j :: 0 <= j < k ==> ps[j] == Probe(h1, h2, j, size)
  {
    if k == 0 then [] else Probes(h1, h2, k - 1, size) + [Probe(h1, h2, k - 1, size)]
  }

  /** The positions an item is hashed to: `k` probes from its two MurmurHash3 values. */
  function Positions(item: seq<bv8>, k: nat, size: nat): (ps: seq<nat>)
    requires size > 0 && |item| < MaxLen
    ensures |ps| == k
  {
    Probes(Murmur3(item, Seed1), Murmur3(item, Seed2), k, size)
  }

  // ---------------------------------------------------------------------------
  // Setting and testing runs of bits

  /** Every position of `ps` lies inside `bytes`. */
  predicate InRange(bytes: seq<bv8>, ps: seq<nat>)
  {
    forall j :: 0 <= j < |ps| ==> ps[j] / 8 < |bytes|
  }

  /** All bits at positions `ps` set, in order. */
  function SetAll(bytes: seq<bv8>, ps: seq<nat>): (r: seq<bv8>)
    requires InRange(bytes, ps)
    ensures |r| == |bytes|
    decreases |ps|
  {
    if ps == [] then bytes else SetBit(SetAll(bytes, ps[..|ps| - 1]), ps[|ps| - 1])
  }

  /** After `SetAll`, a bit is set exactly when it was set before or is one of `ps`. */
  lemma {:induction false} SetAllBits(bytes: seq<bv8>, ps: seq<nat>, q: nat)
    requires InRange(bytes, ps) && q / 8 < |bytes|
    ensures IsSet(SetAll(bytes, ps), q) <==> IsSet(bytes, q) || q in ps
    decreases |ps|
  {
    if ps != [] {
      var front := ps[..|ps| - 1];
      assert ps == front + [ps[|ps| - 1]];
      SetAllBits(bytes, front, q);
      SetBitBits(SetAll(bytes, front), ps[|ps| - 1], q);
    }
  }

  /** Whether every bit at the positions `ps` is set. */
  predicate AllSet(bytes: seq<bv8>, ps: seq<nat>)
    requires InRange(bytes, ps)
  {
    forall j :: 0 <= j < |ps| ==> IsSet(bytes, ps[j])
  }

  /** After `SetAll`, `AllSet` holds for the same positions. */
  lemma SetAllThenAllSet(bytes: seq<bv8>, ps: seq<nat>)
    requires InRange(bytes, ps)
    ensures InRange(SetAll(bytes, ps), ps) && AllSet(SetAll(bytes, ps), ps)
  {
    forall j | 0 <= j < |ps|
      ensures IsSet(SetAll(bytes, ps), ps[j])
    {
      SetAllBits(bytes, ps, ps[j]);
    }
  }

  /** Setting bits clears none, so positions that were all set stay all set. */
  lemma SetAllKeepsAllSet(bytes: seq<bv8>, ps: seq<nat>, qs: seq<nat>)
    requires InRange(bytes, ps) && InRange(bytes, qs) && AllSet(bytes, qs)
    ensures InRange(SetAll(bytes, ps), qs) && AllSet(SetAll(bytes, ps), qs)
  {
    forall j | 0 <= j < |qs|
      ensures IsSet(SetAll(bytes, ps), qs[j])
    {
      SetAllBits(bytes, ps, qs[j]);
    }
  }

  /** Setting the same positions a second time changes nothing. */
  lemma SetAllIdempotent(bytes: seq<bv8>, ps: seq<nat>)
    requires InRange(bytes, ps)
    ensures InRange(SetAll(bytes, ps), ps) && SetAll(SetAll(bytes, ps), ps) == SetAll(bytes, ps)
  {
    var once := SetAll(bytes, ps);
    forall q: nat | q / 8 < |bytes|
      ensures IsSet(SetAll(once, ps), q) <==> IsSet(once, q)
    {
      SetAllBits(bytes, ps, q);
      SetAllBits(once, ps, q);
    }
    BitsExtensionality(SetAll(once, ps), once);
  }

  /** Two runs of bit setting can be done in either order. */
  lemma SetAllCommutes(bytes: seq<bv8>, ps: seq<nat>, qs: seq<nat>)
    requires InRange(bytes, ps) && InRange(bytes, qs)
    ensures InRange(SetAll(bytes, ps), qs) && InRange(SetAll(bytes, qs), ps)
    ensures SetAll(SetAll(bytes, ps), qs) == SetAll(SetAll(bytes, qs), ps)
  {
    var a := SetAll(bytes, ps);
    var b := SetAll(bytes, qs);
    forall q: nat | q / 8 < |bytes|
      ensures IsSet(SetAll(a, qs), q) <==> IsSet(SetAll(b, ps), q)
    {
      SetAllBits(bytes, ps, q);
      SetAllBits(bytes, qs, q);
      SetAllBits(a, qs, q);
      SetAllBits(b, ps, q);
    }
    BitsExtensionality(SetAll(a, qs), SetAll(b, ps));
  }

  /** Setting the first `i + 1` probes is setting the first `i`, then probe `i`. */
  lemma SetProbesStep(bytes: seq<bv8>, h1: bv32, h2: bv32, i: nat, size: nat)
    requires Fits(bytes, size)
    ensures InRange(bytes, Probes(h1, h2, i, size)) && InRange(bytes, Probes(h1, h2, i + 1, size))
    ensures SetAll(bytes, Probes(h1, h2, i + 1, size))
            == SetBit(SetAll(bytes, Probes(h1, h2, i, size)), Probe(h1, h2, i, size))
  {
    assert Probes(h1, h2, i + 1, size)[..i] == Probes(h1, h2, i, size);
  }

  // ---------------------------------------------------------------------------
  // The filter as a value

  /** A bit array allocated for a filter of `size` bits, with `size > 0`
      because every probe is reduced modulo `size`. */
  predicate Fits(bytes: seq<bv8>, size: nat)
  {
    size > 0 && |bytes| == ByteCount(size)
  }

  /** Items whose lengths fit the `int` length parameter of the hash. */
  predicate Keys(items: seq<seq<bv8>>)
  {
    forall i :: 0 <= i < |items| ==> |items[i]| < MaxLen
  }

  /** The bit array after `bloom_add` of `item`. */
  function Insert(bytes: seq<bv8>, item: seq<bv8>, size: nat, k: nat): (r: seq<bv8>)
    requires Fits(bytes, size) && |item| < MaxLen
    ensures Fits(r, size)
  {
    SetAll(bytes, Positions(item, k, size))
  }

  /** The answer of `bloom_check` for `item`: true when every probed bit is set. */
  predicate MayContain(bytes: seq<bv8>, item: seq<bv8>, size: nat, k: nat)
    requires Fits(bytes, size) && |item| < MaxLen
  {
    AllSet(bytes, Positions(item, k, size))
  }

  /** A filter whose bytes are all zero: what `create_bloom_filter` allocates. */
  function Empty(size: nat): (r: seq<bv8>)
    ensures |r| == ByteCount(size)
    ensures forall q: nat :: q / 8 < |r| ==> !IsSet(r, q)
  {
    seq(ByteCount(size), _ => 0)
  }

  /** The bit array after adding `items` one after the other. */
  function InsertAll(bytes: seq<bv8>, items: seq<seq<bv8>>, size: nat, k: nat): (r: seq<bv8>)
    requires Fits(bytes, size) && Keys(items)
    ensures Fits(r, size)
    decreases |items|
  {
    if items == [] then bytes
    else InsertAll(Insert(bytes, items[0], size, k), items[1..], size, k)
  }

  // ---------------------------------------------------------------------------
  // Properties of the filter

  /** No false negatives: right after an item is added, it is reported present. */
  lemma AddThenCheck(bytes: seq<bv8>, item: seq<bv8>, size: nat, k: nat)
    requires Fits(bytes, size) && |item| < MaxLen
    ensures MayContain(Insert(bytes, item, size, k), item, size, k)
  {
    SetAllThenAllSet(bytes, Positions(item, k, size));
  }

  /** Adding an item sets the bits at its positions and leaves every other bit as it was. */
  lemma InsertBits(bytes: seq<bv8>, item: seq<bv8>, size: nat, k: nat, q: nat)
    requires Fits(bytes, size) && |item| < MaxLen && q / 8 < |bytes|
    ensures IsSet(Insert(bytes, item, size, k), q) <==> IsSet(bytes, q) || q in Positions(item, k, size)
  {
    SetAllBits(bytes, Positions(item, k, size), q);
  }

  /** Adding an item never withdraws a positive answer about any item. */
  lemma InsertKeepsAnswers(bytes: seq<bv8>, x: seq<bv8>, y: seq<bv8>, size: nat, k: nat)
    requires Fits(bytes, size) && |x| < MaxLen && |y| < MaxLen
    requires MayContain(bytes, y, size, k)
    ensures MayContain(Insert(bytes, x, size, k), y, size, k)
  {
    SetAllKeepsAllSet(bytes, Positions(x, k, size), Positions(y, k, size));
  }

  /** Adding the same item twice leaves the same bits as adding it once. */
  lemma InsertIdempotent(bytes: seq<bv8>, item: seq<bv8>, size: nat, k: nat)
    requires Fits(bytes, size) && |item| < MaxLen
    ensures Insert(Insert(bytes, item, size, k), item, size, k) == Insert(bytes, item, size, k)
  {
    SetAllIdempotent(bytes, Positions(item, k, size));
  }

  /** The order in which two items are added does not matter. */
  lemma InsertCommutes(bytes: seq<bv8>, x: seq<bv8>, y: seq<bv8>, size: nat, k: nat)
    requires Fits(bytes, size) && |x| < MaxLen && |y| < MaxLen
    ensures Insert(Insert(bytes, x, size, k), y, size, k) == Insert(Insert(bytes, y, size, k), x, size, k)
  {
    SetAllCommutes(bytes, Positions(x, k, size), Positions(y, k, size));
  }

  /** Inserting more items keeps every positive answer. */
  lemma {:induction false} InsertAllKeepsAnswers(bytes: seq<bv8>, items: seq<seq<bv8>>, y: seq<bv8>, size: nat, k: nat)
    requires Fits(bytes, size) && Keys(items) && |y| < MaxLen
    requires MayContain(bytes, y, size, k)
    ensures MayContain(InsertAll(bytes, items, size, k), y, size, k)
    decreases |items|
  {
    if items != [] {
      InsertKeepsAnswers(bytes, items[0], y, size, k);
      InsertAllKeepsAnswers(Insert(bytes, items[0], size, k), items[1..], y, size, k);
    }
  }

  /** Every item that was added is reported present, however many were added after it. */
  lemma {:induction false} AddedAreFound(bytes: seq<bv8>, items: seq<seq<bv8>>, j: nat, size: nat, k: nat)
    requires Fits(bytes, size) && Keys(items) && j < |items|
    ensures MayContain(InsertAll(bytes, items, size, k), items[j], size, k)
    decreases |items|
  {
    var next := Insert(bytes, items[0], size, k);
    if j == 0 {
      AddThenCheck(bytes, items[0], size, k);
      InsertAllKeepsAnswers(next, items[1..], items[0], size, k);
    } else {
      AddedAreFound(next, items[1..], j - 1, size, k);
    }
  }

  /** A negative answer is definitive: an item reported absent was never added. */
  lemma AbsentNeverAdded(items: seq<seq<bv8>>, y: seq<bv8>, size: nat, k: nat)
    requires size > 0 && Keys(items) && |y| < MaxLen
    requires !MayContain(InsertAll(Empty(size), items, size, k), y, size, k)
    ensures y !in items
  {
    if y in items {
      var j :| 0 <= j < |items| && items[j] == y;
      AddedAreFound(Empty(size), items, j, size, k);
    }
  }

  /** A fresh filter with at least one hash function reports every item absent. */
  lemma EmptyRejects(item: seq<bv8>, size: nat, k: nat)
    requires size > 0 && k >= 1 && |item| < MaxLen
    ensures !MayContain(Empty(size), item, size, k)
  {
    var ps := Positions(item, k, size);
    assert !IsSet(Empty(size), ps[0]);
  }

  /** With no hash functions the check loop never runs and every item is reported present. */
  lemma NoHashesAcceptAll(bytes: seq<bv8>, item: seq<bv8>, size: nat)
    requires Fits(bytes, size) && |item| < MaxLen
    ensures MayContain(bytes, item, size, 0)
  {
  }

  // ---------------------------------------------------------------------------
  // The filter object

  /** A `BloomFilter`: `size` bits packed into the array `bits`, probed by
      `numHashes` hash functions. */
  class Filter {
    const size: nat
    const numHashes: nat
    const bits: array<bv8>

    /** The array holds `size` bits, and `numHashes` fits the C `int` it is stored in. */
    ghost predicate Valid()
    {
      bits.Length == ByteCount(size) && numHashes < 0x8000_0000
    }

    /** `create_bloom_filter` once the sizes are chosen: a zeroed array of `(size + 7) / 8` bytes. */
    constructor (size: nat, numHashes: nat)
      requires numHashes < 0x8000_0000
      ensures Valid()
      ensures this.size == size && this.numHashes == numHashes
      ensures fresh(bits) && bits[..] == Empty(size)
    {
      this.size := size;
      this.numHashes := numHashes;
      bits := new bv8[ByteCount(size)](_ => 0);
    }

    /** `bloom_add`: sets the bit at each of the item's `numHashes` probe positions. */
    method Add(item: seq<bv8>)
      requires Valid() && size > 0 && |item| < MaxLen
      modifies bits
      ensures bits[..] == Insert(old(bits[..]), item, size, numHashes)
    {
      var h1 := MurmurHash3X86(item, Seed1);
      var h2 := MurmurHash3X86(item, Seed2);
      SetProbes(h1, h2);
    }

    /** The loop of `bloom_add`: bit `(h1 + i * h2) % size` is set for each `i < numHashes`. */
    method SetProbes(h1: bv32, h2: bv32)
      requires Valid() && size > 0
      modifies bits
      ensures bits[..] == SetAll(old(bits[..]), Probes(h1, h2, numHashes, size))
    {
      var i := 0;
      while i < numHashes
        invariant 0 <= i <= numHashes
        invariant bits[..] == SetAll(old(bits[..]), Probes(h1, h2, i, size))
      {
        var index := Probe(h1, h2, i, size);
        bits[index / 8] := bits[index / 8] | Mask(index % 8);
        SetProbesStep(old(bits[..]), h1, h2, i, size);
        i := i + 1;
      }
    }

    /** `bloom_check`: whether every one of the item's probe positions holds a set bit. */
    method Check(item: seq<bv8>) returns (found: bool)
      requires Valid() && size > 0 && |item| < MaxLen
      ensures found <==> MayContain(bits[..], item, size, numHashes)
    {
      var h1 := MurmurHash3X86(item, Seed1);
      var h2 := MurmurHash3X86(item, Seed2);
      found := ProbesSet(h1, h2);
    }

    /** The loop of `bloom_check`, which answers false at the first clear bit. */
    method ProbesSet(h1: bv32, h2: bv32) returns (found: bool)
      requires Valid() && size > 0
      ensures found <==> AllSet(bits[..], Probes(h1, h2, numHashes, size))
    {
      var i := 0;
      while i < numHashes
        invariant 0 <= i <= numHashes
        invariant AllSet(bits[..], Probes(h1, h2, i, size))
      {
        var index := Probe(h1, h2, i, size);
        if bits[index / 8] & Mask(index % 8) == 0 {
          return false;
        }
        i := i + 1;
      }
      return true;
    }
  }
}
