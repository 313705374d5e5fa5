/** MurmurHash3, x86 32-bit variant, as used by the Bloom filter.
    All arithmetic is wrapping 32-bit unsigned arithmetic, i.e. `bv32`. */
module Murmur {

  /** Keys shorter than 2^31 bytes: the source passes the length as a C `int`. */
  const MaxLen: int := 0x8000_0000

  const C1: bv32 := 0xcc9e2d51
  const C2: bv32 := 0x1b873593

  /** 32-bit rotate left, written as the source writes it. */
  function Rotl(x: bv32, r: bv32): bv32
    requires 0 < r < 32
  {
    (x << r) | (x >> (32 - r))
  }

  /** Little-endian load of the 4-byte block number `i`. */
  function Block(data: seq<bv8>, i: nat): bv32
    requires 4 * i + 4 <= |data|
  {
    (data[4 * i] as bv32)
    | ((data[4 * i + 1] as bv32) << 8)
    | ((data[4 * i + 2] as bv32) << 16)
    | ((data[4 * i + 3] as bv32) << 24)
  }

  /** The scrambling applied to every block and to the tail word. */
  function MixK1(k1: bv32): bv32
  {
    Rotl(k1 * C1, 15) * C2
  }

  /** Folding one scrambled word into the running state. */
  function MixH1(h1: bv32, k1: bv32): bv32
  {
    Rotl(h1 ^ k1, 13) * 5 + 0xe6546b64
  }

  /** The avalanche finaliser. */
  function Fmix32(h: bv32): bv32
  {
    var h1 := h ^ (h >> 16);
    var h2 := h1 * 0x85ebca6b;
    var h3 := h2 ^ (h2 >> 13);
    var h4 := h3 * 0xc2b2ae35;
    h4 ^ (h4 >> 16)
  }

  /** What one block does to the state. */
  function BlockStep(h1: bv32, block: bv32): bv32
  {
    MixH1(h1, MixK1(block))
  }

  /** `step` folded over the first `n` full blocks of `data`, starting from `h`. */
  function FoldBlocks(data: seq<bv8>, h: bv32, n: nat, step: (bv32, bv32) -> bv32): bv32
    requires 4 * n <= |data|
  {
    if n == 0 then h else step(FoldBlocks(data, h, n - 1, step), Block(data, n - 1))
  }

  /** The state after mixing the first `n` full blocks of `data`, starting from `seed`. */
  function Body(data: seq<bv8>, seed: bv32, n: nat): bv32
    requires 4 * n <= |data|
  {
    FoldBlocks(data, seed, n, BlockStep)
  }

  /** `Body` advances one block at a time. */
  lemma BodyStep(data: seq<bv8>, seed: bv32, n: nat)
    requires 4 * n + 4 <= |data|
    ensures Body(data, seed, n + 1) == BlockStep(Body(data, seed, n), Block(data, n))
  {
  }

  /** The word formed by the last `|data| % 4` bytes, the first of them in the low byte. */
  function TailWord(data: seq<bv8>): bv32
  {
    var t := |data| / 4 * 4;
    var r := |data| % 4;
    (if r == 3 then (data[t + 2] as bv32) << 16 else 0)
    ^ (if r >= 2 then (data[t + 1] as bv32) << 8 else 0)
    ^ (if r >= 1 then data[t] as bv32 else 0)
  }

  /** The `case 1` arm of the tail switch: the tail word is scrambled and folded
      into `h`, unless there are no tail bytes (`r == 0`). */
  function TailMix(h: bv32, k1: bv32, r: nat): bv32
  {
    if r == 0 then h else h ^ MixK1(k1)
  }

  /** Mixing of the tail bytes into `h`: nothing at all when the length is a multiple of 4. */
  function Tail(data: seq<bv8>, h: bv32): bv32
  {
    TailMix(h, TailWord(data), |data| % 4)
  }

  /** `Tail` by cases, as the source's switch distinguishes them. */
  lemma TailCases(data: seq<bv8>, h: bv32)
    ensures |data| % 4 == 0 ==> Tail(data, h) == h
    ensures |data| % 4 != 0 ==> Tail(data, h) == h ^ MixK1(TailWord(data))
  {
  }

  /** `n` zero bytes. */
  function Zeros(n: nat): (z: seq<bv8>)
    ensures |z| == n && forall i :: 0 <= i < n ==> z[i] == 0
  {
    seq(n, _ => 0)
  }

  /** The tail word is the little-endian load of the tail bytes padded with zero
      bytes to a full block. */
  lemma TailWordIsPaddedBlock(data: seq<bv8>)
    ensures TailWord(data) == Block(data[|data| / 4 * 4..] + Zeros(4 - |data| % 4), 0)
  {
  }

  /** The key length as the 32-bit word the finaliser mixes in. */
  function LenWord(len: nat): bv32
    requires len < MaxLen
  {
    len as bv32
  }

  /** The last step: the length is mixed in, then the finaliser is applied. */
  function Finish(h: bv32, len: nat): bv32
    requires len < MaxLen
  {
    Fmix32(h ^ LenWord(len))
  }

  /** MurmurHash3_x86_32 of `data` with `seed`. */
  function Murmur3(data: seq<bv8>, seed: bv32): bv32
    requires |data| < MaxLen
  {
    Finish(Tail(data, Body(data, seed, |data| / 4)), |data|)
  }

  /** The hash computed as the source does: a loop over the blocks,
      the tail switch with its fall-through, then the finaliser. */
  method MurmurHash3X86(data: seq<bv8>, seed: bv32) returns (out: bv32)
    requires |data| < MaxLen
    ensures out == Murmur3(data, seed)
  {
    var len := |data|;
    var nblocks := len / 4;
    var h1 := seed;
    var i := 0;
    while i < nblocks
      invariant 0 <= i <= nblocks
      invariant h1 == Body(data, seed, i)
    {
      BodyStep(data, seed, i);
      var k1 := MixK1(Block(data, i));
      h1 := MixH1(h1, k1);
      i := i + 1;
    }

    var k1 := LoadTail(data);
    h1 := MixTail(h1, k1, len % 4);
    out := Finish(h1, len);
  }

  /** The tail step: the gathered tail word `k1` is scrambled and folded into
      the state, unless there are no tail bytes. */
  method MixTail(h: bv32, k1: bv32, r: nat) returns (h1: bv32)
    ensures h1 == TailMix(h, k1, r)
  {
    h1 := h;
    if r != 0 {
      h1 := h1 ^ MixK1(k1);
    }
  }

  /** The tail bytes gathered by the source's `switch (len & 3)`, whose cases fall through. */
  method LoadTail(data: seq<bv8>) returns (k1: bv32)
    ensures k1 == TailWord(data)
  {
    var tail := |data| / 4 * 4;
    var r := |data| % 4;
    k1 := 0;
    if r == 3 {
      k1 := k1 ^ ((data[tail + 2] as bv32) << 16);
    }
    if r >= 2 {
      k1 := k1 ^ ((data[tail + 1] as bv32) << 8);
    }
    if r >= 1 {
      k1 := k1 ^ data[tail] as bv32;
    }
  }

  // ---------------------------------------------------------------------------
  // Structure of the hash

  /** A block is determined by its four bytes, wherever they stand. */
  lemma SameBytesSameBlock(a: seq<bv8>, i: nat, b: seq<bv8>, j: nat)
    requires 4 * i + 4 <= |a| && 4 * j + 4 <= |b|
    requires a[4 * i] == b[4 * j] && a[4 * i + 1] == b[4 * j + 1]
    requires a[4 * i + 2] == b[4 * j + 2] && a[4 * i + 3] == b[4 * j + 3]
    ensures Block(a, i) == Block(b, j)
  {
  }

  /** Only the first `n` blocks are folded: bytes after them play no part. */
  lemma {:induction false} FoldReadsOnlyBlocks(a: seq<bv8>, b: seq<bv8>, h: bv32, n: nat, step: (bv32, bv32) -> bv32)
    requires 4 * n <= |a| && 4 * n <= |b|
    requires forall k :: 0 <= k < 4 * n ==> a[k] == b[k]
    ensures FoldBlocks(a, h, n, step) == FoldBlocks(b, h, n, step)
  {
    if n > 0 {
      FoldReadsOnlyBlocks(a, b, h, n - 1, step);
      var i := 4 * (n - 1);
      assert a[i] == b[i] && a[i + 1] == b[i + 1] && a[i + 2] == b[i + 2] && a[i + 3] == b[i + 3];
      SameBytesSameBlock(a, n - 1, b, n - 1);
    }
  }

  /** Folding is incremental over whole blocks: folding over the blocks of `a + b`
      is folding over those of `a`, then continuing from that state over those of `b`. */
  lemma {:induction false} FoldConcat(a: seq<bv8>, b: seq<bv8>, h: bv32, m: nat, step: (bv32, bv32) -> bv32)
    requires |a| % 4 == 0 && 4 * m <= |b|
    ensures FoldBlocks(a + b, h, |a| / 4 + m, step) == FoldBlocks(b, FoldBlocks(a, h, |a| / 4, step), m, step)
  {
    var n := |a| / 4;
    if m == 0 {
      FoldReadsOnlyBlocks(a + b, a, h, n, step);
    } else {
      FoldConcat(a, b, h, m - 1, step);
      var i := 4 * (n + m - 1);
      var j := 4 * (m - 1);
      assert (a + b)[i] == b[j] && (a + b)[i + 1] == b[j + 1];
      assert (a + b)[i + 2] == b[j + 2] && (a + b)[i + 3] == b[j + 3];
      SameBytesSameBlock(a + b, n + m - 1, b, m - 1);
    }
  }

  /** The hash reads exactly the key: two keys that agree on their first
      `4 * (len / 4)` bytes reach the same state before the tail. */
  lemma BodyReadsOnlyBlocks(a: seq<bv8>, b: seq<bv8>, seed: bv32, n: nat)
    requires 4 * n <= |a| && 4 * n <= |b|
    requires forall k :: 0 <= k < 4 * n ==> a[k] == b[k]
    ensures Body(a, seed, n) == Body(b, seed, n)
  {
    FoldReadsOnlyBlocks(a, b, seed, n, BlockStep);
  }

  /** Hashing whole blocks can be done incrementally, block run after block run. */
  lemma BodyConcat(a: seq<bv8>, b: seq<bv8>, seed: bv32)
    requires |a| % 4 == 0
    ensures Body(a + b, seed, (|a| + |b|) / 4) == Body(b, Body(a, seed, |a| / 4), |b| / 4)
  {
    assert (|a| + |b|) / 4 == |a| / 4 + |b| / 4;
    FoldConcat(a, b, seed, |b| / 4, BlockStep);
  }

  // ---------------------------------------------------------------------------
  // Published reference values of MurmurHash3_x86_32

  lemma EmptyKeyVectors()
    ensures Murmur3([], 0) == 0
    ensures Murmur3([], 1) == 0x514e28b7
    ensures Murmur3([], 0xffffffff) == 0x81f16f39
  {
  }

  /** "ab": a two-byte tail. */
  lemma TwoByteTailVector()
    ensures Murmur3([0x61, 0x62], 0x9747b28c) == 0x74875592
  {
    var d: seq<bv8> := [0x61, 0x62];
    assert TailWord(d) == 0x6261;
    assert MixK1(0x6261) == 0x5b87902c;
    TailCases(d, 0x9747b28c);
    assert Finish(0xccc022a0, 2) == 0x74875592;
  }

  /** "abc": a three-byte tail, the case that falls through the whole switch. */
  lemma ThreeByteTailVector()
    ensures Murmur3([0x61, 0x62, 0x63], 0x9747b28c) == 0xc84a62dd
  {
    var d: seq<bv8> := [0x61, 0x62, 0x63];
    assert TailWord(d) == 0x636261;
    assert MixK1(0x636261) == 0xa7349db7;
    TailCases(d, 0x9747b28c);
    assert Finish(0x30732f3b, 3) == 0xc84a62dd;
  }

  /** "abcd": one whole block and no tail. */
  lemma OneBlockVector()
    ensures Murmur3([0x61, 0x62, 0x63, 0x64], 0x9747b28c) == 0xf0478627
  {
    var d: seq<bv8> := [0x61, 0x62, 0x63, 0x64];
    assert Block(d, 0) == 0x64636261;
    assert BlockStep(0x9747b28c, 0x64636261) == 0x1719cb66;
    BodyStep(d, 0x9747b28c, 0);
    TailCases(d, 0x1719cb66);
    assert Finish(0x1719cb66, 4) == 0xf0478627;
  }

  /** "Hello, world!": three blocks and a one-byte tail. */
  lemma ThreeBlocksVector()
    ensures Murmur3([0x48, 0x65, 0x6c, 0x6c, 0x6f, 0x2c, 0x20, 0x77, 0x6f, 0x72, 0x6c, 0x64, 0x21], 0x9747b28c)
            == 0x24884cba
  {
    var d: seq<bv8> := [0x48, 0x65, 0x6c, 0x6c, 0x6f, 0x2c, 0x20, 0x77, 0x6f, 0x72, 0x6c, 0x64, 0x21];
    assert Block(d, 0) == 0x6c6c6548;
    assert BlockStep(0x9747b28c, 0x6c6c6548) == 0xdae4c92e;
    BodyStep(d, 0x9747b28c, 0);
    assert Block(d, 1) == 0x77202c6f;
    assert BlockStep(0xdae4c92e, 0x77202c6f) == 0x71c6b43c;
    BodyStep(d, 0x9747b28c, 1);
    assert Block(d, 2) == 0x646c726f;
    assert BlockStep(0x71c6b43c, 0x646c726f) == 0x3bd692af;
    BodyStep(d, 0x9747b28c, 2);
    assert TailWord(d) == 0x21;
    assert MixK1(0x21) == 0xac5e5123;
    TailCases(d, 0x3bd692af);
    assert Finish(0x9788c38c, 13) == 0x24884cba;
  }
}
