/** Integer and string encodings, after include/lsm/coding.h. */
module Coding {
  import opened ByteStrings

  // ------------------------------------------------------ little-endian words

  function Pow256(n: nat): nat {
    if n == 0 then 1 else 256 * Pow256(n - 1)
  }

  function PutLE(v: nat, n: nat): (r: Bytes)
    ensures |r| == n
  {
    if n == 0 then [] else [v % 256] + PutLE(v / 256, n - 1)
  }

  function GetLE(s: Bytes): nat {
    if s == [] then 0 else s[0] + 256 * GetLE(s[1..])
  }

  lemma {:induction false} LERoundTrip(v: nat, n: nat)
    requires v < Pow256(n)
    ensures GetLE(PutLE(v, n)) == v
    decreases n
  {
    if n > 0 {
      LERoundTrip(v / 256, n - 1);
      assert PutLE(v, n)[1..] == PutLE(v / 256, n - 1);
    }
  }

  /** Decoding and encoding are inverse both ways. */
  lemma {:induction false} LEInverse(s: Bytes)
    ensures PutLE(GetLE(s), |s|) == s
    decreases s
  {
    if s != [] {
      LEInverse(s[1..]);
      assert (s[0] + 256 * GetLE(s[1..])) % 256 == s[0];
      assert (s[0] + 256 * GetLE(s[1..])) / 256 == GetLE(s[1..]);
      assert s == [s[0]] + s[1..];
    }
  }

  /** A number without its `i` lowest digits: `v >> 8 * i` for base 256. */
  function HighPart(v: nat, base: nat, i: nat): nat
    requires base > 0
  {
    if i == 0 then v else HighPart(v, base, i - 1) / base
  }

  lemma {:induction false} HighPartNext(v: nat, base: nat, i: nat)
    requires base > 0
    ensures HighPart(v, base, i + 1) == HighPart(v / base, base, i)
    decreases i
  {
    if i > 0 { HighPartNext(v, base, i - 1); }
  }

  /** Byte `i` is digit `i` to the base 256: low byte first. */
  lemma {:induction false} LEDigit(v: nat, n: nat, i: nat)
    requires i < n
    ensures PutLE(v, n)[i] == HighPart(v, 256, i) % 256
    decreases i
  {
    if i > 0 {
      LEDigit(v / 256, n - 1, i - 1);
      HighPartNext(v, 256, i - 1);
    }
  }

  lemma Pow256Values()
    ensures Pow256(4) == TWO32
    ensures Pow256(8) == TWO64
  {
    assert Pow256(2) == 65536;
    assert Pow256(4) == 65536 * 65536;
    assert Pow256(6) == 65536 * 65536 * 65536;
    assert Pow256(8) == 65536 * 65536 * 65536 * 65536;
  }

  function Fixed32(v: nat): (r: Bytes)
    ensures |r| == 4
  {
    PutLE(v, 4)
  }

  function Fixed64(v: nat): (r: Bytes)
    ensures |r| == 8
  {
    PutLE(v, 8)
  }

  function DecodeFixed32(s: Bytes, p: nat): (v: nat)
    requires p + 4 <= |s|
  {
    GetLE(s[p..p + 4])
  }

  function DecodeFixed64(s: Bytes, p: nat): (v: nat)
    requires p + 8 <= |s|
  {
    GetLE(s[p..p + 8])
  }

  lemma Fixed32RoundTrip(s: Bytes, p: nat, v: nat)
    requires v < TWO32 && Holds(s, p, Fixed32(v))
    ensures DecodeFixed32(s, p) == v
  {
    Pow256Values();
    LERoundTrip(v, 4);
  }

  lemma Fixed64RoundTrip(s: Bytes, p: nat, v: nat)
    requires v < TWO64 && Holds(s, p, Fixed64(v))
    ensures DecodeFixed64(s, p) == v
  {
    Pow256Values();
    LERoundTrip(v, 8);
  }

  // ------------------------------------------------------------------ varints

  /** Seven bits per byte, high bit set while more follow. */
  function Varint(v: nat): (r: Bytes)
    ensures |r| >= 1
  {
    if v < 128 then [v] else [v % 128 + 128] + Varint(v / 128)
  }

  /** Byte `i` carries digit `i` to the base 128, and says whether more follow; no more bytes
      are used than needed. */
  lemma {:induction false} VarintDigit(v: nat, i: nat)
    requires i < |Varint(v)|
    ensures Varint(v)[i] % 128 == HighPart(v, 128, i) % 128
    ensures Varint(v)[i] >= 128 <==> i < |Varint(v)| - 1
    ensures i > 0 && i == |Varint(v)| - 1 ==> Varint(v)[i] != 0
    decreases i
  {
    if i > 0 {
      VarintDigit(v / 128, i - 1);
      HighPartNext(v, 128, i - 1);
    }
  }

  method PutVarint32(dst: Bytes, v: nat) returns (r: Bytes)
    requires v < TWO32
    ensures r == dst + Varint(v)
  {
    r := dst;
    var value := v;
    while value >= 128
      invariant r + Varint(value) == dst + Varint(v)
    {
      assert r + Varint(value) == r + [value % 128 + 128] + Varint(value / 128);
      r := r + [value % 128 + 128];
      value := value / 128;
    }
    r := r + [value];
  }

  function Pow128(n: nat): (r: nat)
    ensures r >= 1
  {
    if n == 0 then 1 else 128 * Pow128(n - 1)
  }

  /** The low seven bits of `b`, shifted left by `7 * i` in 32 bits. */
  function Shifted(b: byte, i: nat): nat {
    (b % 128 * Pow128(i)) % TWO32
  }

  lemma ShiftedIs(b: byte, i: nat)
    requires b % 128 * Pow128(i) < TWO32
    ensures Shifted(b, i) == b % 128 * Pow128(i)
  {
  }

  /** What a decoder that has already consumed `i` bytes, worth `acc`, makes of `s` from `p`
      on. At most five bytes. */
  function GetVarintFrom(s: Bytes, p: nat, limit: nat, i: nat, acc: nat): Option<(nat, nat)>
    requires limit <= |s|
    decreases 5 - i
  {
    if i >= 5 || p >= limit then None
    else
      var acc' := acc + Shifted(s[p], i);
      if s[p] >= 128 then GetVarintFrom(s, p + 1, limit, i + 1, acc')
      else Some((acc', p + 1))
  }

  /** The value at `p` and the offset after it, or nothing if it runs past `limit`. */
  function GetVarint(s: Bytes, p: nat, limit: nat): Option<(nat, nat)>
    requires limit <= |s|
  {
    GetVarintFrom(s, p, limit, 0, 0)
  }

  method GetVarint32Ptr(s: Bytes, start: nat, limit: nat) returns (r: Option<(nat, nat)>)
    requires limit <= |s|
    ensures r == GetVarint(s, start, limit)
  {
    var result: nat, p: nat, i: nat := 0, start, 0;
    while i < 5 && p < limit
      invariant GetVarintFrom(s, p, limit, i, result) == GetVarint(s, start, limit)
      decreases 5 - i
    {
      var b := s[p];
      p := p + 1;
      result := result + Shifted(b, i);
      if b < 128 { return Some((result, p)); }
      i := i + 1;
    }
    return None;
  }

  lemma GetVarintMore(s: Bytes, p: nat, limit: nat, i: nat, acc: nat, low: nat)
    requires p < limit <= |s| && i < 5 && low < 128 && s[p] == low + 128 && low * Pow128(i) < TWO32
    ensures GetVarintFrom(s, p, limit, i, acc) == GetVarintFrom(s, p + 1, limit, i + 1, acc + low * Pow128(i))
  {
    hide Shifted, Pow128;
    ShiftedIs(s[p], i);
  }

  lemma GetVarintLast(s: Bytes, p: nat, limit: nat, i: nat, acc: nat)
    requires p < limit <= |s| && i < 5 && s[p] < 128 && s[p] * Pow128(i) < TWO32
    ensures GetVarintFrom(s, p, limit, i, acc) == Some((acc + s[p] * Pow128(i), p + 1))
  {
    hide Shifted, Pow128;
    ShiftedIs(s[p], i);
  }

  lemma {:induction false} VarintFromRoundTrip(s: Bytes, p: nat, limit: nat, i: nat, acc: nat, v: nat)
    requires limit <= |s| && p + |Varint(v)| <= limit && Holds(s, p, Varint(v))
    requires i < 5 && v * Pow128(i) < TWO32
    ensures GetVarintFrom(s, p, limit, i, acc) == Some((acc + v * Pow128(i), p + |Varint(v)|))
    decreases v
  {
    hide Pow128, GetVarintFrom;
    assert s[p] == Varint(v)[0] by { assert s[p] == s[p..p + |Varint(v)|][0]; }
    if v < 128 {
      GetVarintLast(s, p, limit, i, acc);
    } else {
      var low, high, q := v % 128, v / 128, Pow128(i);
      assert v * q == low * q + high * (128 * q) by { SplitProduct(low, high, q); }
      assert low * q < TWO32 && high * (128 * q) < TWO32 by { SplitProduct(low, high, q); }
      FitsFive(high, i);
      Pow128Next(i);
      HoldsConcat(s, p, [low + 128], Varint(high));
      GetVarintMore(s, p, limit, i, acc, low);
      VarintFromRoundTrip(s, p + 1, limit, i + 1, acc + low * q, high);
    }
  }

  lemma SplitProduct(low: nat, high: nat, q: nat)
    ensures (low + 128 * high) * q == low * q + high * (128 * q)
    ensures 0 <= low * q <= (low + 128 * high) * q
    ensures 0 <= high * (128 * q) <= (low + 128 * high) * q
  {
  }

  lemma Pow128Next(i: nat)
    ensures Pow128(i + 1) == 128 * Pow128(i)
  {
  }

  lemma Pow128Five()
    ensures Pow128(5) == 0x8_0000_0000
  {
    assert Pow128(3) == 128 * 128 * 128;
    assert Pow128(5) == 128 * 128 * Pow128(3);
  }

  lemma FitsFive(high: nat, i: nat)
    requires i < 5 && high >= 1 && high * (128 * Pow128(i)) < TWO32
    ensures i < 4
  {
    hide Pow128;
    Pow128Next(i);
    Pow128Five();
    SplitProduct(128 * Pow128(i), 0, high);
    assert 128 * Pow128(i) <= high * (128 * Pow128(i));
  }

  /** Whatever surrounds it, an encoded varint decodes to its value. */
  lemma VarintRoundTrip(s: Bytes, p: nat, limit: nat, v: nat)
    requires v < TWO32 && limit <= |s| && p + |Varint(v)| <= limit && Holds(s, p, Varint(v))
    ensures GetVarint(s, p, limit) == Some((v, p + |Varint(v)|))
  {
    VarintFromRoundTrip(s, p, limit, 0, 0, v);
  }

  // -------------------------------------------------------- length prefixing

  function LengthPrefixed(s: Bytes): (r: Bytes)
    ensures |r| == 4 + |s|
  {
    Fixed32(|s|) + s
  }

  /** The string at `p` and the offset after it. */
  function GetLengthPrefixed(s: Bytes, p: nat): (r: Option<(Bytes, nat)>)
    requires p <= |s|
    ensures r.Some? ==> p < r.value.1 <= |s|
  {
    if |s| - p < 4 then None
    else
      var len := DecodeFixed32(s, p);
      if |s| - p < 4 + len then None
      else Some((s[p + 4..p + 4 + len], p + 4 + len))
  }

  lemma LengthPrefixedRoundTrip(s: Bytes, p: nat, x: Bytes)
    requires |x| < TWO32 && Holds(s, p, LengthPrefixed(x))
    ensures GetLengthPrefixed(s, p) == Some((x, p + 4 + |x|))
  {
    HoldsConcat(s, p, Fixed32(|x|), x);
    Fixed32RoundTrip(s, p, |x|);
  }
}
