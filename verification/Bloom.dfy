/** The bloom filter, after src/bloom.cpp. It may say "maybe" to a key that was never added,
    but never "no" to one that was. */
module Blooms {
  import opened ByteStrings
  import opened Checksums

  // --------------------------------------------------------------------- hash

  const M: bv32 := 0xc6a4a793
  const SEED: bv32 := 0xbc9f1d34

  function Le32(s: Bytes, p: nat): bv32
    requires p + 4 <= |s|
  {
    (Bits(s[p]) as bv32) | ((Bits(s[p + 1]) as bv32) << 8)
    | ((Bits(s[p + 2]) as bv32) << 16) | ((Bits(s[p + 3]) as bv32) << 24)
  }

  function Mix(h: bv32, w: bv32): bv32 {
    var x := (h + w) * M;
    x ^ (x >> 16)
  }

  function Tail(h: bv32, s: Bytes, p: nat): bv32
    requires p <= |s|
  {
    if p == |s| then h
    else
      var a := if |s| - p >= 3 then h + ((Bits(s[p + 2]) as bv32) << 16) else h;
      var b := if |s| - p >= 2 then a + ((Bits(s[p + 1]) as bv32) << 8) else a;
      var x := (b + (Bits(s[p]) as bv32)) * M;
      x ^ (x >> 24)
  }

  function HashFrom(h: bv32, s: Bytes, p: nat): bv32
    requires p <= |s|
    decreases |s| - p
  {
    if |s| - p >= 4 then HashFrom(Mix(h, Le32(s, p)), s, p + 4) else Tail(h, s, p)
  }

  /** Where the hash of a key of `n` bytes starts. */
  function Start(n: nat): bv32 {
    SEED ^ (((n % TWO32) as bv32) * M)
  }

  function Hash(key: Bytes): bv32 {
    HashFrom(Start(|key|), key, 0)
  }

  method BloomHash(key: Bytes) returns (h: bv32)
    ensures h == Hash(key)
  {
    hide Mix, Le32;
    h := Start(|key|);
    var p := 0;
    while |key| - p >= 4
      invariant p <= |key| && HashFrom(h, key, p) == Hash(key)
    {
      h := Mix(h, Le32(key, p));
      p := p + 4;
    }
    h := Tail(h, key, p);
  }

  lemma StartVectors()
    ensures Start(0) == 0xbc9f1d34 && Start(1) == 0x7a3bbaa7 && Start(2) == 0x31d65212
    ensures Start(3) == 0xef72eb8d && Start(4) == 0xa60d8378
  {
  }

  lemma BitsVectors()
    ensures Bits(0x62) == 0x62 && Bits(0xc3) == 0xc3 && Bits(0x97) == 0x97 && Bits(0xe2) == 0xe2 && Bits(0x99) == 0x99
    ensures Bits(0xa5) == 0xa5 && Bits(0xe1) == 0xe1 && Bits(0x80) == 0x80 && Bits(0xb9) == 0xb9 && Bits(0x32) == 0x32
  {
  }

  lemma TailVectors()
    ensures Tail(Start(1), [0x62], 0) == 0xef1345c4 && Tail(Start(2), [0xc3, 0x97], 0) == 0x5b663814
    ensures Tail(Start(3), [0xe2, 0x99, 0xa5], 0) == 0x323c078f
  {
    hide Start, Bits;
    StartVectors();
    BitsVectors();
  }

  lemma MixVector()
    ensures Mix(Start(4), Le32([0xe1, 0x80, 0xb9, 0x32], 0)) == 0xed21633a
  {
    hide Start, Bits;
    StartVectors();
    BitsVectors();
  }

  /** Known answers of this hash, for each length of the tail. */
  lemma HashVectors()
    ensures Hash([]) == 0xbc9f1d34 && Hash([0x62]) == 0xef1345c4 && Hash([0xc3, 0x97]) == 0x5b663814
    ensures Hash([0xe2, 0x99, 0xa5]) == 0x323c078f && Hash([0xe1, 0x80, 0xb9, 0x32]) == 0xed21633a
  {
    hide Start, Mix, Le32, Tail;
    StartVectors();
    TailVectors();
    MixVector();
    TailEnd(0xbc9f1d34, []);
    TailEnd(0xed21633a, [0xe1, 0x80, 0xb9, 0x32]);
  }

  lemma TailEnd(h: bv32, s: Bytes)
    ensures Tail(h, s, |s|) == h
  {
  }

  /** The hash rotated right by 17 bits: the distance between probes. */
  function Delta(h: bv32): bv32 {
    (h >> 17) | (h << 15)
  }

  /** Probe number `i` of a key. */
  function Probe(h: bv32, delta: bv32, i: nat): bv32 {
    if i == 0 then h else Sum(Probe(h, delta, i - 1), delta)
  }

  function Sum(a: bv32, b: bv32): bv32 {
    a + b
  }

  // --------------------------------------------------------------------- bits

  function Pow2(n: nat): (r: nat)
    ensures r >= 1
  {
    if n == 0 then 1 else 2 * Pow2(n - 1)
  }

  predicate TestBit(b: nat, j: nat) {
    if j == 0 then b % 2 == 1 else TestBit(b / 2, j - 1)
  }

  /** b | (1 << j) */
  function WithBit(b: nat, j: nat): nat {
    if j == 0 then b / 2 * 2 + 1 else WithBit(b / 2, j - 1) * 2 + b % 2
  }

  lemma {:induction false} WithBitSets(b: nat, j: nat, i: nat)
    ensures TestBit(WithBit(b, j), i) <==> i == j || TestBit(b, i)
    decreases j
  {
    if j == 0 {
      assert WithBit(b, 0) / 2 == b / 2;
    } else {
      var high, low := WithBit(b / 2, j - 1), b % 2;
      assert WithBit(b, j) / 2 == high && WithBit(b, j) % 2 == low;
      if i > 0 { WithBitSets(b / 2, j - 1, i - 1); }
    }
  }

  lemma {:induction false} WithBitFits(b: nat, j: nat, n: nat)
    requires b < Pow2(n) && j < n
    ensures WithBit(b, j) < Pow2(n)
    decreases j
  {
    var half := Pow2(n - 1);
    assert Pow2(n) == 2 * half;
    hide Pow2;
    assert b / 2 < half;
    if j > 0 { WithBitFits(b / 2, j - 1, n - 1); }
  }

  function SetBit(b: byte, j: nat): (r: byte)
    requires j < 8
    ensures forall i :: TestBit(r, i) <==> i == j || TestBit(b, i)
  {
    assert Pow2(8) == 256 by { assert Pow2(4) == 16; }
    WithBitFits(b, j, 8);
    assert forall i :: TestBit(WithBit(b, j), i) <==> i == j || TestBit(b, i) by {
      forall i ensures TestBit(WithBit(b, j), i) <==> i == j || TestBit(b, i) { WithBitSets(b, j, i); }
    }
    WithBit(b, j)
  }

  // ------------------------------------------------------------------- filter

  predicate TestAt(data: Bytes, pos: nat)
    requires pos < 8 * |data|
  {
    TestBit(data[pos / 8], pos % 8)
  }

  function Slot(h: bv32, bytes: nat): (p: nat)
    requires bytes > 0
    ensures p < 8 * bytes
  {
    ToNat(h) % (bytes * 8)
  }

  function Position(h: bv32, i: nat, bytes: nat): (p: nat)
    requires bytes > 0
    ensures p < 8 * bytes
  {
    Slot(Probe(h, Delta(h), i), bytes)
  }

  /** All `k` probes of the key hit set bits. */
  ghost predicate AllSet(bits: Bytes, h: bv32, k: nat) {
    |bits| > 0 && forall i :: 0 <= i < k ==> TestAt(bits, Position(h, i, |bits|))
  }

  /** What a filter says: a filter too short to be one, or with a reserved probe count, says
      maybe to everything. */
  ghost predicate MayContain(data: Bytes, key: Bytes) {
    |data| < 2 || data[|data| - 1] > 30 || AllSet(data[..|data| - 1], Hash(key), data[|data| - 1])
  }

  function Clamp(k: int): (n: nat)
    ensures 1 <= n <= 30
  {
    if k < 1 then 1 else if k > 30 then 30 else k
  }

  /** k = (bits per key) * ln 2, between 1 and 30. */
  function Probes(bitsPerKey: nat): (k: nat)
    ensures 1 <= k <= 30
  {
    Clamp((bitsPerKey as real * 0.69314718056).Floor)
  }

  /** Size of the bit array: never below 64 bits, whole bytes. */
  function FilterBytes(keys: nat, bitsPerKey: nat): (n: nat)
    ensures n >= 8
  {
    var bits := keys * bitsPerKey;
    ((if bits < 64 then 64 else bits) + 7) / 8
  }

  lemma ParameterVectors()
    ensures Delta(0xef1345c4) == 0xa2e27789 && Probe(0xef1345c4, 0xa2e27789, 2) == 0x34d834d6
    ensures Probes(0) == 1 && Probes(10) == 6 && Probes(100) == 30
    ensures FilterBytes(0, 10) == 8 && FilterBytes(100, 10) == 125 && FilterBytes(33, 2) == 9
  {
  }

  /** Some probe of the hash lands on bit `p`. */
  ghost predicate Lands(h: bv32, k: nat, bytes: nat, p: nat) {
    bytes > 0 && exists i: nat :: i < k && Position(h, i, bytes) == p
  }

  /** Exactly the probes of these keys are set. */
  ghost predicate Exact(bits: Bytes, keys: seq<Bytes>, k: nat) {
    forall p :: 0 <= p < 8 * |bits| ==>
      (TestAt(bits, p) <==> exists key :: key in keys && Lands(Hash(key), k, |bits|, p))
  }

  /** Setting one bit changes that bit only. */
  lemma SetOne(bits: Bytes, p: nat, q: nat)
    requires p < 8 * |bits| && q < 8 * |bits|
    ensures TestAt(bits[p / 8 := SetBit(bits[p / 8], p % 8)], q) <==> q == p || TestAt(bits, q)
  {
    hide TestBit, SetBit;
    if p / 8 == q / 8 { assert q == p <==> q % 8 == p % 8; }
  }

  /** Sets the key's probes in place. */
  method AddKey(filter: array<byte>, key: Bytes, k: nat)
    requires filter.Length > 0
    modifies filter
    ensures forall p :: 0 <= p < 8 * filter.Length ==>
      (TestAt(filter[..], p) <==> TestAt(old(filter[..]), p) || Lands(Hash(key), k, filter.Length, p))
  {
    hide SetBit, TestBit, Delta, Slot, Sum, Hash, TestAt;
    var h := BloomHash(key);
    ghost var h0 := h;
    var delta := Delta(h);
    for i := 0 to k
      invariant h == Probe(h0, delta, i)
      invariant forall p :: 0 <= p < 8 * filter.Length ==>
        (TestAt(filter[..], p) <==> TestAt(old(filter[..]), p) || Lands(h0, i, filter.Length, p))
    {
      ghost var was := filter[..];
      var pos := Slot(h, filter.Length);
      assert pos == Position(h0, i, filter.Length);
      filter[pos / 8] := SetBit(filter[pos / 8], pos % 8);
      assert filter[..] == was[pos / 8 := SetBit(was[pos / 8], pos % 8)];
      forall p | 0 <= p < 8 * filter.Length
        ensures TestAt(filter[..], p) <==> TestAt(old(filter[..]), p) || Lands(h0, i + 1, filter.Length, p)
      {
        SetOne(was, pos, p);
        LandsNext(h0, i, filter.Length, p);
      }
      h := Sum(h, delta);
    }
  }

  lemma LandsNext(h: bv32, i: nat, bytes: nat, p: nat)
    requires bytes > 0
    ensures Lands(h, i + 1, bytes, p) <==> Lands(h, i, bytes, p) || Position(h, i, bytes) == p
  {
    hide Position;
    if j: nat :| j < i + 1 && Position(h, j, bytes) == p { assert j < i || j == i; }
  }

  lemma {:induction false} NoBits(j: nat)
    ensures !TestBit(0, j)
    decreases j
  {
    if j > 0 { NoBits(j - 1); }
  }

  /** The filter of a list of keys: its bits are exactly their probes, so no key that was
      added is ever rejected. */
  method Build(keys: seq<Bytes>, bitsPerKey: nat) returns (data: Bytes)
    ensures |data| == FilterBytes(|keys|, bitsPerKey) + 1 && data[|data| - 1] == Probes(bitsPerKey)
    ensures Exact(data[..|data| - 1], keys, Probes(bitsPerKey))
    ensures forall key :: key in keys ==> MayContain(data, key)
  {
    hide Lands, Hash, Probes, TestAt, MayContain;
    var k := Probes(bitsPerKey);
    var bits := |keys| * bitsPerKey;
    if bits < 64 { bits := 64; }
    var bytes := (bits + 7) / 8;
    var filter := new byte[bytes](i => 0);
    forall p | 0 <= p < 8 * bytes ensures !TestAt(filter[..], p) { EmptyAt(filter[..], p); }
    assert keys[..0] == [];
    for n := 0 to |keys|
      invariant Exact(filter[..], keys[..n], k)
    {
      ghost var was := filter[..];
      AddKey(filter, keys[n], k);
      assert |was| == |filter[..]| == bytes;
      ExactNext(was, filter[..], keys, n, k);
    }
    assert keys[..|keys|] == keys;
    data := filter[..] + [k];
    assert data[..|data| - 1] == filter[..];
    forall key | key in keys ensures MayContain(data, key) { ExactAccepts(data, keys, key); }
  }

  lemma EmptyAt(bits: Bytes, p: nat)
    requires p < 8 * |bits| && forall i :: 0 <= i < |bits| ==> bits[i] == 0
    ensures !TestAt(bits, p)
  {
    NoBits(p % 8);
  }

  lemma ExactNext(was: Bytes, bits: Bytes, keys: seq<Bytes>, n: nat, k: nat)
    requires n < |keys| && |was| == |bits| && Exact(was, keys[..n], k)
    requires forall p :: 0 <= p < 8 * |bits| ==>
      (TestAt(bits, p) <==> TestAt(was, p) || Lands(Hash(keys[n]), k, |bits|, p))
    ensures Exact(bits, keys[..n + 1], k)
  {
    hide Lands, Hash, TestAt;
    assert keys[..n + 1] == keys[..n] + [keys[n]];
    assert forall key :: key in keys[..n + 1] <==> key in keys[..n] || key == keys[n];
  }

  /** A filter with exactly the right bits accepts every key it was built from. */
  lemma ExactAccepts(data: Bytes, keys: seq<Bytes>, key: Bytes)
    requires |data| >= 2 && Exact(data[..|data| - 1], keys, data[|data| - 1]) && key in keys
    ensures MayContain(data, key)
  {
    hide TestAt, Hash, Position;
    var bits, k := data[..|data| - 1], data[|data| - 1];
    forall i | 0 <= i < k ensures TestAt(bits, Position(Hash(key), i, |bits|)) {
      assert Lands(Hash(key), k, |bits|, Position(Hash(key), i, |bits|));
    }
  }

  method CheckKey(data: Bytes, key: Bytes) returns (maybe: bool)
    ensures maybe == MayContain(data, key)
  {
    hide TestBit, Delta, Slot, Sum, Hash;
    if |data| < 2 { return true; }
    var bytes := |data| - 1;
    ghost var bits := data[..bytes];
    var k := data[bytes];
    if k > 30 { return true; }
    var h := BloomHash(key);
    ghost var h0 := h;
    var delta := Delta(h);
    for i := 0 to k
      invariant h == Probe(h0, delta, i) && AllSet(bits, h0, i)
    {
      var pos := Slot(h, bytes);
      assert pos == Position(h0, i, bytes);
      if !TestBit(data[pos / 8], pos % 8) {
        assert !TestAt(bits, Position(h0, i, |bits|));
        return false;
      }
      h := Sum(h, delta);
    }
    maybe := true;
  }
}
