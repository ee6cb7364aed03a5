/** CRC-32C (Castagnoli), after src/crc32c.cpp.

    `BitSerial` is the bit-at-a-time register and the reference for everything else.
    `MakeTables` and `ExtendSoftware` are the table-driven slicing-by-8 code; the proofs
    rest on one register step being linear over exclusive-or, and a bijection. */
module Crc32c {

  const POLY: bv32 := 0x82f63b78

  // ---------------------------------------------------------------- reference

  /** One bit of the reflected shift register. */
  function Step(c: bv32): bv32 {
    if c & 1 != 0 then (c >> 1) ^ POLY else c >> 1
  }

  function Steps(c: bv32, n: nat): bv32
    decreases n
  {
    if n == 0 then c else Steps(Step(c), n - 1)
  }

  function Xor(a: bv32, b: bv32): bv32 {
    a ^ b
  }

  /** The register after feeding one byte, least significant bit first. */
  function FeedByte(c: bv32, b: bv8): bv32 {
    Steps(Xor(c, b as bv32), 8)
  }

  function BitSerial(c: bv32, data: seq<bv8>): bv32
    decreases data
  {
    if data == [] then c else BitSerial(FeedByte(c, data[0]), data[1..])
  }

  /** The published CRC: register inverted on the way in and on the way out. */
  function Extend(crc: bv32, data: seq<bv8>): bv32 {
    Not(BitSerial(Not(crc), data))
  }

  function Not(c: bv32): bv32 {
    !c
  }

  function Value(data: seq<bv8>): bv32 {
    Extend(0, data)
  }

  // ------------------------------------------------------ algebra of the step

  lemma XorAssociates(a: bv32, b: bv32, c: bv32)
    ensures Xor(Xor(a, b), c) == Xor(a, Xor(b, c))
  {
  }

  lemma XorCommutes(a: bv32, b: bv32)
    ensures Xor(a, b) == Xor(b, a)
  {
  }

  lemma XorCancels(c: bv32, a: bv32, b: bv32)
    requires Xor(c, a) == Xor(c, b)
    ensures a == b
  {
  }

  lemma StepOdd(c: bv32)
    requires c & 1 != 0
    ensures Step(c) == (c >> 1) ^ POLY
  {
  }

  lemma StepEven(c: bv32)
    requires c & 1 == 0
    ensures Step(c) == c >> 1
  {
  }

  lemma XorParity(a: bv32, b: bv32)
    ensures (a ^ b) & 1 == 0 <==> (a & 1 == b & 1)
    ensures a & 1 == 0 || a & 1 == 1
  {
  }

  lemma XorOddOdd(a: bv32, b: bv32, x: bv32, y: bv32, z: bv32)
    requires x == (a >> 1) ^ POLY && y == (b >> 1) ^ POLY && z == (a ^ b) >> 1
    ensures z == x ^ y
  {
  }

  lemma XorOddEven(a: bv32, b: bv32, x: bv32, y: bv32, z: bv32)
    requires x == (a >> 1) ^ POLY && y == b >> 1 && z == ((a ^ b) >> 1) ^ POLY
    ensures z == x ^ y
  {
  }

  lemma XorEven(a: bv32, b: bv32)
    requires a & 1 == 0 && b & 1 == 0
    ensures Xor(a, b) & 1 == 0
  {
  }

  lemma XorIs(a: bv32, b: bv32)
    ensures Xor(a, b) == a ^ b
  {
  }

  lemma HalvesXor(a: bv32, b: bv32, x: bv32, y: bv32, z: bv32)
    requires x == a >> 1 && y == b >> 1 && z == (a ^ b) >> 1
    ensures z == Xor(x, y)
  {
  }

  lemma XorHalves(a: bv32, b: bv32)
    ensures Xor(a, b) >> 1 == Xor(a >> 1, b >> 1)
  {
    hide Xor;
    calc {
      Xor(a, b) >> 1;
      { XorIs(a, b); }
      (a ^ b) >> 1;
      { HalvesXor(a, b, a >> 1, b >> 1, (a ^ b) >> 1); }
      Xor(a >> 1, b >> 1);
    }
  }

  lemma StepLinearOddOdd(a: bv32, b: bv32)
    requires a & 1 != 0 && b & 1 != 0
    ensures Step(a ^ b) == Step(a) ^ Step(b)
  {
    XorParity(a, b);
    XorParity(b, a);
    StepOdd(a);
    StepOdd(b);
    StepEven(a ^ b);
    XorOddOdd(a, b, Step(a), Step(b), Step(a ^ b));
  }

  lemma StepLinearOddEven(a: bv32, b: bv32)
    requires a & 1 != 0 && b & 1 == 0
    ensures Step(a ^ b) == Step(a) ^ Step(b)
  {
    XorParity(a, b);
    StepOdd(a);
    StepEven(b);
    StepOdd(a ^ b);
    XorOddEven(a, b, Step(a), Step(b), Step(a ^ b));
  }

  lemma StepLinearEvenEven(a: bv32, b: bv32)
    requires a & 1 == 0 && b & 1 == 0
    ensures Step(Xor(a, b)) == Xor(Step(a), Step(b))
  {
    hide Step, Xor;
    XorEven(a, b);
    StepEven(a);
    StepEven(b);
    StepEven(Xor(a, b));
    XorHalves(a, b);
  }

  /** The step is linear over exclusive-or. */
  lemma StepLinear(a: bv32, b: bv32)
    ensures Step(Xor(a, b)) == Xor(Step(a), Step(b))
  {
    hide Step;
    if a & 1 != 0 && b & 1 != 0 {
      StepLinearOddOdd(a, b);
    } else if a & 1 != 0 {
      StepLinearOddEven(a, b);
    } else if b & 1 != 0 {
      StepLinearOddEven(b, a);
      XorCommutes(a, b);
      XorCommutes(Step(a), Step(b));
    } else {
      StepLinearEvenEven(a, b);
    }
  }

  lemma {:induction false} StepsLinear(a: bv32, b: bv32, n: nat)
    ensures Steps(Xor(a, b), n) == Xor(Steps(a, n), Steps(b, n))
    decreases n
  {
    hide Step, Xor;
    if n > 0 {
      StepLinear(a, b);
      StepsLinear(Step(a), Step(b), n - 1);
    }
  }

  /** The step loses nothing: POLY has its top bit set, so that bit of the result says
      which branch was taken. */
  lemma StepInjective(a: bv32, b: bv32)
    requires Step(a) == Step(b)
    ensures a == b
  {
  }

  lemma {:induction false} StepsInjective(a: bv32, b: bv32, n: nat)
    requires Steps(a, n) == Steps(b, n)
    ensures a == b
    decreases n
  {
    hide Step;
    if n > 0 {
      StepsInjective(Step(a), Step(b), n - 1);
      StepInjective(a, b);
    }
  }

  lemma {:induction false} StepsAdd(c: bv32, m: nat, n: nat)
    ensures Steps(c, m + n) == Steps(Steps(c, m), n)
    decreases m
  {
    hide Step;
    if m > 0 { StepsAdd(Step(c), m - 1, n); }
  }

  // ---------------------------------------------------------- bytes in a word

  function Halve(x: bv32, n: nat): bv32
    decreases n
  {
    if n == 0 then x else Halve(x >> 1, n - 1)
  }

  predicate LowOnes(m: bv32, n: nat)
    decreases n
  {
    n == 0 || (m & 1 == 1 && LowOnes(m >> 1, n - 1))
  }

  lemma EvenUnderMask(x: bv32, m: bv32)
    requires x & m == 0 && m & 1 == 1
    ensures x & 1 == 0 && (x >> 1) & (m >> 1) == 0
  {
  }

  lemma {:induction false} SlideBits(x: bv32, m: bv32, n: nat)
    requires x & m == 0 && LowOnes(m, n)
    ensures Steps(x, n) == Halve(x, n)
    decreases n
  {
    hide Step;
    if n > 0 {
      EvenUnderMask(x, m);
      StepEven(x);
      SlideBits(x >> 1, m >> 1, n - 1);
    }
  }

  lemma Halve8(x: bv32)
    ensures Halve(x, 8) == x >> 8
  {
    assert Halve(x, 8) == Halve(x >> 1 >> 1 >> 1 >> 1, 4);
    assert x >> 1 >> 1 >> 1 >> 1 == x >> 4;
    assert Halve(x >> 4, 4) == (x >> 4) >> 1 >> 1 >> 1 >> 1;
  }

  /** Bits parked above an empty low byte simply slide down. */
  lemma SlideByte(x: bv32)
    requires x & 0xff == 0
    ensures Steps(x, 8) == x >> 8
  {
    hide Step;
    assert LowOnes(0xff, 8);
    SlideBits(x, 0xff, 8);
    Halve8(x);
  }

  lemma ShiftUpDown(v: bv32)
    requires v >> 24 == 0
    ensures (v << 8) & 0xff == 0 && (v << 8) >> 8 == v
  {
  }

  /** A value shifted up by a byte is back where it was eight steps later. */
  lemma UnshiftByte(v: bv32)
    requires v >> 24 == 0
    ensures Steps(v << 8, 8) == v
  {
    hide Step;
    ShiftUpDown(v);
    SlideByte(v << 8);
  }

  lemma SplitLowByte(x: bv32)
    ensures x == Xor(x & 0xff, (x >> 8) << 8)
    ensures (x >> 8) >> 24 == 0
  {
  }

  /** The low byte of the register travels separately from the rest. */
  lemma PeelByte(x: bv32, n: nat)
    requires n >= 8
    ensures Steps(x, n) == Xor(Steps(x & 0xff, n), Steps(x >> 8, n - 8))
  {
    hide Step, Xor;
    SplitLowByte(x);
    StepsLinear(x & 0xff, (x >> 8) << 8, n);
    StepsAdd((x >> 8) << 8, 8, n - 8);
    UnshiftByte(x >> 8);
  }

  /** Up to four bytes as a little-endian word. */
  function Le(w: seq<bv8>): bv32
    requires |w| <= 4
  {
    if w == [] then 0 else Xor(w[0] as bv32, Le(w[1..]) << 8)
  }

  lemma WordFits(a: bv8, v: bv32, x: bv32)
    requires x == Xor(a as bv32, v << 8)
    ensures v == 0 ==> x >> 8 == 0
    ensures v >> 8 == 0 ==> x >> 16 == 0
    ensures v >> 16 == 0 ==> x >> 24 == 0
  {
  }

  lemma LeFits(w: seq<bv8>)
    requires |w| <= 3
    ensures Le(w) >> 24 == 0
    ensures |w| <= 2 ==> Le(w) >> 16 == 0
    ensures |w| <= 1 ==> Le(w) >> 8 == 0
    ensures |w| == 0 ==> Le(w) == 0
  {
    hide Xor;
    if w != [] {
      LeFits(w[1..]);
      WordFits(w[0], Le(w[1..]), Le(w));
    }
    Narrow(Le(w));
  }

  lemma Narrow(x: bv32)
    ensures x >> 8 == 0 ==> x >> 16 == 0
    ensures x >> 16 == 0 ==> x >> 24 == 0
  {
  }

  /** Mixing `v` in eight steps after `b` is mixing it in now, a byte higher. */
  lemma MixEarlier(c: bv32, b: bv32, v: bv32, n: nat)
    requires v >> 24 == 0
    ensures Steps(Xor(Steps(Xor(c, b), 8), v), n) == Steps(Xor(c, Xor(b, v << 8)), 8 + n)
  {
    hide Step, Steps, Xor;
    calc {
      Steps(Xor(Steps(Xor(c, b), 8), v), n);
      { UnshiftByte(v); }
      Steps(Xor(Steps(Xor(c, b), 8), Steps(v << 8, 8)), n);
      { StepsLinear(Xor(c, b), v << 8, 8); }
      Steps(Steps(Xor(Xor(c, b), v << 8), 8), n);
      { XorAssociates(c, b, v << 8); }
      Steps(Steps(Xor(c, Xor(b, v << 8)), 8), n);
      { StepsAdd(Xor(c, Xor(b, v << 8)), 8, n); }
      Steps(Xor(c, Xor(b, v << 8)), 8 + n);
    }
  }

  /** Feeding up to four bytes is the same as mixing them in as one word first. */
  lemma {:induction false} FeedWord(c: bv32, w: seq<bv8>)
    requires |w| <= 4
    ensures BitSerial(c, w) == Steps(Xor(c, Le(w)), 8 * |w|)
    decreases |w|
  {
    hide Step, Xor;
    if w == [] {
      XorZero(c);
    } else {
      LeFits(w[1..]);
      FeedWord(FeedByte(c, w[0]), w[1..]);
      MixEarlier(c, w[0] as bv32, Le(w[1..]), 8 * |w[1..]|);
    }
  }

  lemma XorZero(c: bv32)
    ensures Xor(c, 0) == c
  {
  }

  lemma {:induction false} BitSerialConcat(c: bv32, a: seq<bv8>, b: seq<bv8>)
    ensures BitSerial(c, a + b) == BitSerial(BitSerial(c, a), b)
    decreases |a|
  {
    hide FeedByte;
    if a == [] {
      assert a + b == b;
    } else {
      assert (a + b)[1..] == a[1..] + b;
      BitSerialConcat(FeedByte(c, a[0]), a[1..], b);
    }
  }

  // ------------------------------------------------------------- the tables

  function Byte(i: nat): bv32
    requires i < 256
  {
    i as bv8 as bv32
  }

  /** Row `k` of the tables: byte `i` followed by `k` further zero bytes. */
  ghost function Row(k: nat, i: nat): bv32
    requires i < 256
  {
    Steps(Byte(i), 8 * (k + 1))
  }

  ghost predicate TablesOk(t: array2<bv32>)
    reads t
  {
    && t.Length0 == 8 && t.Length1 == 256
    && forall k: nat, i: nat :: k < 8 && i < 256 ==> t[k, i] == Row(k, i)
  }

  function Low(c: bv32): (i: nat)
    ensures i < 256
  {
    assert c & 0xff < 256;
    (c & 0xff) as bv8 as int
  }

  lemma BvRoundTrip(b: bv8)
    ensures b as int as bv8 == b
  {
  }

  lemma LowByte(c: bv32)
    ensures Byte(Low(c)) == c & 0xff
  {
    assert c & 0xff < 256;
    BvRoundTrip((c & 0xff) as bv8);
  }

  lemma StepIs(c: bv32)
    ensures Step(c) == if c & 1 != 0 then Xor(c >> 1, POLY) else c >> 1
  {
  }

  method ByteCrc(i: nat) returns (crc: bv32)
    requires i < 256
    ensures crc == Row(0, i)
  {
    hide Step, Xor, Byte;
    crc := Byte(i);
    for bit := 0 to 8
      invariant Steps(crc, 8 - bit) == Row(0, i)
    {
      StepIs(crc);
      crc := if crc & 1 != 0 then Xor(crc >> 1, POLY) else crc >> 1;
    }
  }

  /** One byte through table 0: the rest of the register just moves down. */
  lemma TableByte(x: bv32)
    ensures Steps(x, 8) == Xor(Row(0, Low(x)), x >> 8)
  {
    hide Step, Xor, Byte, Low;
    PeelByte(x, 8);
    LowByte(x);
  }

  /** Appending one zero byte to a table row. */
  lemma NextRow(k: nat, i: nat)
    requires i < 256
    ensures Row(k + 1, i) == Xor(Row(k, i) >> 8, Row(0, Low(Row(k, i))))
  {
    hide Step, Steps, Xor, Byte, Low;
    var previous := Row(k, i);
    calc {
      Row(k + 1, i);
      { StepsAdd(Byte(i), 8 * (k + 1), 8); }
      Steps(previous, 8);
      { TableByte(previous); }
      Xor(Row(0, Low(previous)), previous >> 8);
      { XorCommutes(Row(0, Low(previous)), previous >> 8); }
      Xor(previous >> 8, Row(0, Low(previous)));
    }
  }

  method MakeTables() returns (t: array2<bv32>)
    ensures fresh(t) && TablesOk(t)
  {
    hide Row, Xor, Low;
    t := new bv32[8, 256];
    for i := 0 to 256
      invariant forall j: nat :: j < i ==> t[0, j] == Row(0, j)
    {
      t[0, i] := ByteCrc(i);
    }
    for i := 0 to 256
      invariant forall j: nat :: j < 256 ==> t[0, j] == Row(0, j)
      invariant forall k: nat, j: nat :: k < 8 && j < i ==> t[k, j] == Row(k, j)
    {
      for k := 1 to 8
        invariant forall j: nat :: j < 256 ==> t[0, j] == Row(0, j)
        invariant forall l: nat, j: nat :: l < 8 && j < i ==> t[l, j] == Row(l, j)
        invariant forall l: nat :: l < k ==> t[l, i] == Row(l, i)
      {
        var previous := t[k - 1, i];
        NextRow(k - 1, i);
        t[k, i] := Xor(previous >> 8, t[0, Low(previous)]);
      }
    }
  }

  // ------------------------------------------------------------ slicing by 8

  function Shr8(x: bv32): bv32 {
    x >> 8
  }

  function Shr16(x: bv32): bv32 {
    x >> 16
  }

  function Shr24(x: bv32): bv32 {
    x >> 24
  }

  lemma ShrChain(x: bv32)
    ensures Shr8(Shr8(x)) == Shr16(x) && Shr8(Shr16(x)) == Shr24(x) && Shr24(x) & 0xff == Shr24(x)
  {
  }

  function Xor4(a: bv32, b: bv32, c: bv32, d: bv32): bv32 {
    Xor(Xor(Xor(a, b), c), d)
  }

  lemma Xor4Nested(a: bv32, b: bv32, c: bv32, d: bv32)
    ensures Xor(a, Xor(b, Xor(c, d))) == Xor4(a, b, c, d)
  {
    hide Xor;
    XorAssociates(a, b, Xor(c, d));
    XorAssociates(Xor(a, b), c, d);
  }

  lemma PeelRow(x: bv32, k: nat)
    ensures Steps(x, 8 * (k + 1)) == Xor(Row(k, Low(x)), Steps(Shr8(x), 8 * k))
  {
    hide Step, Steps, Xor, Byte, Low;
    PeelByte(x, 8 * (k + 1));
    LowByte(x);
  }

  lemma LastRow(x: bv32, k: nat)
    requires x & 0xff == x
    ensures Steps(x, 8 * (k + 1)) == Row(k, Low(x))
  {
    hide Step, Steps, Xor, Byte, Low;
    LowByte(x);
  }

  /** A whole word run forward is four table rows, one per byte. */
  lemma WordByRows(x: bv32, k: nat)
    ensures Steps(x, 8 * (k + 4))
         == Xor4(Row(k + 3, Low(x)), Row(k + 2, Low(Shr8(x))), Row(k + 1, Low(Shr16(x))), Row(k, Low(Shr24(x))))
  {
    hide Step, Steps, Xor, Row, Low, Xor4, Shr8, Shr16, Shr24;
    ShrChain(x);
    PeelRow(x, k + 3);
    PeelRow(Shr8(x), k + 2);
    PeelRow(Shr16(x), k + 1);
    LastRow(Shr24(x), k);
    Xor4Nested(Row(k + 3, Low(x)), Row(k + 2, Low(Shr8(x))), Row(k + 1, Low(Shr16(x))), Row(k, Low(Shr24(x))));
  }

  function LoadLE32(data: seq<bv8>, p: nat): bv32
    requires p + 4 <= |data|
  {
    Le(data[p..p + 4])
  }

  /** Eight bytes at once: the low word carries the register, the high word does not. */
  lemma FeedEight(c: bv32, w: seq<bv8>)
    requires |w| == 8
    ensures BitSerial(c, w) == Xor(Steps(Xor(c, Le(w[..4])), 64), Steps(Le(w[4..]), 32))
  {
    hide Step, Steps, Xor, BitSerial, Le;
    var lo, hi := w[..4], w[4..];
    var mixed := Xor(c, Le(lo));
    calc {
      BitSerial(c, w);
      { assert w == lo + hi; BitSerialConcat(c, lo, hi); }
      BitSerial(BitSerial(c, lo), hi);
      { FeedWord(c, lo); }
      BitSerial(Steps(mixed, 32), hi);
      { FeedWord(Steps(mixed, 32), hi); }
      Steps(Xor(Steps(mixed, 32), Le(hi)), 32);
      { StepsLinear(Steps(mixed, 32), Le(hi), 32); }
      Xor(Steps(Steps(mixed, 32), 32), Steps(Le(hi), 32));
      { StepsAdd(mixed, 32, 32); }
      Xor(Steps(mixed, 64), Steps(Le(hi), 32));
    }
  }

  method SliceEight(t: array2<bv32>, c0: bv32, data: seq<bv8>, p: nat) returns (c: bv32)
    requires TablesOk(t) && p + 8 <= |data|
    ensures c == BitSerial(c0, data[p..p + 8])
  {
    hide Step, Steps, Xor, Row, BitSerial, Low, Le, Shr8, Shr16, Shr24;
    c := Xor(c0, LoadLE32(data, p));
    var high := LoadLE32(data, p + 4);
    ghost var w := data[p..p + 8];
    assert w[..4] == data[p..p + 4] && w[4..] == data[p + 4..p + 8];
    FeedEight(c0, w);
    WordByRows(c, 4);
    WordByRows(high, 0);
    c := Xor(Xor4(t[7, Low(c)], t[6, Low(Shr8(c))], t[5, Low(Shr16(c))], t[4, Low(Shr24(c))]),
             Xor4(t[3, Low(high)], t[2, Low(Shr8(high))], t[1, Low(Shr16(high))], t[0, Low(Shr24(high))]));
  }

  lemma ShiftIgnoresByte(c: bv32, b: bv8)
    ensures Xor(c, b as bv32) >> 8 == c >> 8
  {
  }

  /** Slicing-by-8 with a byte tail computes exactly the bit-serial CRC. */
  method ExtendSoftware(crc: bv32, data: seq<bv8>) returns (r: bv32)
    ensures r == Extend(crc, data)
  {
    hide Step, Steps, Xor, Row, Low, FeedByte, Not;
    var t := MakeTables();
    var c := Not(crc);
    var p := 0;
    while |data| - p >= 8
      invariant p <= |data|
      invariant TablesOk(t) && BitSerial(c, data[p..]) == BitSerial(Not(crc), data)
    {
      assert data[p..] == data[p..p + 8] + data[p + 8..];
      BitSerialConcat(c, data[p..p + 8], data[p + 8..]);
      c := SliceEight(t, c, data, p);
      p := p + 8;
    }
    while p < |data|
      invariant p <= |data|
      invariant TablesOk(t) && BitSerial(c, data[p..]) == BitSerial(Not(crc), data)
    {
      FeedByTable(c, data[p]);
      assert data[p..][1..] == data[p + 1..];
      c := Xor(t[0, Low(Xor(c, data[p] as bv32))], c >> 8);
      p := p + 1;
    }
    r := Not(c);
  }

  lemma FeedByTable(c: bv32, b: bv8)
    ensures FeedByte(c, b) == Xor(Row(0, Low(Xor(c, b as bv32))), c >> 8)
  {
    hide Step, Steps, Xor, Row, Low;
    TableByte(Xor(c, b as bv32));
    ShiftIgnoresByte(c, b);
  }

  // -------------------------------------------------- properties of the CRC

  /** The CRC can be extended piece by piece, wherever the pieces are cut. */
  lemma ExtendConcat(crc: bv32, a: seq<bv8>, b: seq<bv8>)
    ensures Extend(Extend(crc, a), b) == Extend(crc, a + b)
  {
    hide BitSerial, Not;
    BitSerialConcat(Not(crc), a, b);
    NotNot(BitSerial(Not(crc), a));
  }

  lemma NotNot(x: bv32)
    ensures Not(Not(x)) == x
  {
  }

  lemma {:induction false} BitSerialInjective(c: bv32, d: bv32, data: seq<bv8>)
    requires BitSerial(c, data) == BitSerial(d, data)
    ensures c == d
    decreases |data|
  {
    hide Step, Steps, Xor;
    if data != [] {
      BitSerialInjective(FeedByte(c, data[0]), FeedByte(d, data[0]), data[1..]);
      StepsInjective(Xor(c, data[0] as bv32), Xor(d, data[0] as bv32), 8);
      XorCommutes(c, data[0] as bv32);
      XorCommutes(d, data[0] as bv32);
      XorCancels(data[0] as bv32, c, d);
    }
  }

  lemma PackInjective(a: bv8, b: bv8, v: bv32, w: bv32)
    requires v >> 24 == 0 && w >> 24 == 0
    requires Xor(a as bv32, v << 8) == Xor(b as bv32, w << 8)
    ensures a == b && v == w
  {
  }

  lemma {:induction false} LeInjective(a: seq<bv8>, b: seq<bv8>)
    requires |a| == |b| <= 4 && Le(a) == Le(b)
    ensures a == b
    decreases |a|
  {
    hide Xor;
    if a != [] {
      LeFits(a[1..]);
      LeFits(b[1..]);
      PackInjective(a[0], b[0], Le(a[1..]), Le(b[1..]));
      LeInjective(a[1..], b[1..]);
      assert a == [a[0]] + a[1..] && b == [b[0]] + b[1..];
    }
  }

  /** Damage confined to four consecutive bytes is always detected: two messages that agree
      outside one such window, but not inside it, have different CRCs. */
  lemma BurstDetected(crc: bv32, before: seq<bv8>, w: seq<bv8>, w': seq<bv8>, after: seq<bv8>)
    requires |w| == |w'| <= 4 && w != w'
    ensures Extend(crc, before + w + after) != Extend(crc, before + w' + after)
  {
    hide Step, Steps, Xor, BitSerial, Le, Not;
    if Extend(crc, before + w + after) == Extend(crc, before + w' + after) {
      var c := BitSerial(Not(crc), before);
      BitSerialConcat(Not(crc), before + w, after);
      BitSerialConcat(Not(crc), before, w);
      BitSerialConcat(Not(crc), before + w', after);
      BitSerialConcat(Not(crc), before, w');
      NotInjective(BitSerial(Not(crc), before + w + after), BitSerial(Not(crc), before + w' + after));
      BitSerialInjective(BitSerial(c, w), BitSerial(c, w'), after);
      FeedWord(c, w);
      FeedWord(c, w');
      StepsInjective(Xor(c, Le(w)), Xor(c, Le(w')), 8 * |w|);
      XorCancels(c, Le(w), Le(w'));
      LeInjective(w, w');
    }
  }

  lemma NotInjective(x: bv32, y: bv32)
    requires Not(x) == Not(y)
    ensures x == y
  {
  }

  // --------------------------------------------------------- which CRC it is

  function Step8(c: bv32): bv32 {
    Step(Step(Step(Step(Step(Step(Step(Step(c))))))))
  }

  lemma StepsEight(c: bv32)
    ensures Steps(c, 8) == Step8(c)
  {
    hide Step;
    StepsAdd(c, 4, 4);
  }

  /** A word's worth of steps, ready to be evaluated. */
  function Step32(c: bv32): bv32 {
    Step8(Step8(Step8(Step8(c))))
  }

  lemma StepsWord(c: bv32)
    ensures Steps(c, 32) == Step32(c)
  {
    hide Step, Step8, Steps;
    StepsEight(c);
    StepsEight(Step8(c));
    StepsEight(Step8(Step8(c)));
    StepsEight(Step8(Step8(Step8(c))));
    StepsAdd(c, 8, 24);
    StepsAdd(Step8(c), 8, 16);
    StepsAdd(Step8(Step8(c)), 8, 8);
  }

  // -------------------------------------------------------- known answers

  /** The four bytes of a word as they are written to a file, low byte first. */
  function Stored(c: bv32): (w: seq<bv8>)
    ensures |w| == 4
  {
    [(c & 0xff) as bv8, ((c >> 8) & 0xff) as bv8, ((c >> 16) & 0xff) as bv8, ((c >> 24) & 0xff) as bv8]
  }

  function Shl8(x: bv32): bv32 {
    x << 8
  }

  function Pack(a: bv8, b: bv8, c: bv8, d: bv8): bv32 {
    (a as bv32) ^ ((b as bv32) << 8) ^ ((c as bv32) << 16) ^ ((d as bv32) << 24)
  }

  lemma Packed(a: bv8, b: bv8, c: bv8, d: bv8)
    ensures Xor(a as bv32, Shl8(Xor(b as bv32, Shl8(Xor(c as bv32, Shl8(d as bv32)))))) == Pack(a, b, c, d)
  {
  }

  lemma LeStep(b: bv8, rest: seq<bv8>)
    requires |rest| <= 3
    ensures Le([b] + rest) == Xor(b as bv32, Shl8(Le(rest)))
  {
    hide Xor;
    assert ([b] + rest)[1..] == rest;
  }

  lemma LeOne(b: bv8)
    ensures Le([b]) == b as bv32
  {
    assert [b][1..] == [];
  }

  lemma FourBytes(a: bv8, b: bv8, c: bv8, d: bv8)
    ensures Le([a, b, c, d]) == Pack(a, b, c, d)
  {
    hide Xor, Le, Shl8, Pack;
    assert [a, b, c, d] == [a] + [b, c, d] && [b, c, d] == [b] + [c, d] && [c, d] == [c] + [d];
    LeStep(a, [b, c, d]);
    LeStep(b, [c, d]);
    LeStep(c, [d]);
    LeOne(d);
    Packed(a, b, c, d);
  }

  lemma StoredIs(c: bv32)
    ensures Le(Stored(c)) == c
  {
    hide Le;
    var w := Stored(c);
    FourBytes(w[0], w[1], w[2], w[3]);
  }

  lemma XorNot(c: bv32)
    ensures Xor(c, Not(c)) == 0xffffffff && Not(0) == 0xffffffff
  {
  }

  lemma ResidueStep()
    ensures Step32(0xffffffff) == 0xb798b438
  {
  }

  /** A message followed by its own checksum leaves the register at a value that depends on the
      polynomial alone. */
  lemma Residue(data: seq<bv8>)
    ensures BitSerial(0xffffffff, data + Stored(Value(data))) == 0xb798b438
  {
    hide Step32, Steps, Xor, BitSerial, Le, Not, Stored;
    var c, w := BitSerial(0xffffffff, data), Stored(Value(data));
    XorNot(c);
    BitSerialConcat(0xffffffff, data, w);
    FeedWord(c, w);
    StoredIs(Value(data));
    StepsWord(0xffffffff);
    ResidueStep();
  }

  /** Data laid out in rows of four bytes. */
  function Join(rows: seq<seq<bv8>>): seq<bv8> {
    if rows == [] then [] else rows[0] + Join(rows[1..])
  }

  /** The register after each row, given one by one. */
  lemma {:induction false} RowByRow(rows: seq<seq<bv8>>, regs: seq<bv32>)
    requires |regs| == |rows| + 1 && forall i :: 0 <= i < |rows| ==> |rows[i]| == 4
    requires forall i :: 0 <= i < |rows| ==> Step32(Xor(regs[i], Le(rows[i]))) == regs[i + 1]
    ensures BitSerial(regs[0], Join(rows)) == regs[|rows|]
    decreases |rows|
  {
    hide Step32, Xor, Steps, Le, BitSerial;
    if rows == [] {
      NothingFed(regs[0]);
    } else {
      BitSerialConcat(regs[0], rows[0], Join(rows[1..]));
      FeedWord(regs[0], rows[0]);
      StepsWord(Xor(regs[0], Le(rows[0])));
      RowByRow(rows[1..], regs[1..]);
    }
  }

  lemma NothingFed(c: bv32)
    ensures BitSerial(c, []) == c
  {
  }

  lemma NotIs()
    ensures Not(0) == 0xffffffff && Not(0x756ec955) == 0x8a9136aa && Not(0x9d5754bc) == 0x62a8ab43
    ensures Not(0xb92286b1) == 0x46dd794e
  {
  }

  lemma ZerosTurns()
    ensures Step32(Xor(0xffffffff, 0x00000000)) == 0xb798b438 && Step32(Xor(0xb798b438, 0x00000000)) == 0x73d74d75
    ensures Step32(Xor(0x73d74d75, 0x00000000)) == 0xd49f4aa2 && Step32(Xor(0xd49f4aa2, 0x00000000)) == 0xbd8f6515
    ensures Step32(Xor(0xbd8f6515, 0x00000000)) == 0x433aa9c1 && Step32(Xor(0x433aa9c1, 0x00000000)) == 0x7b041311
    ensures Step32(Xor(0x7b041311, 0x00000000)) == 0x08363896 && Step32(Xor(0x08363896, 0x00000000)) == 0x756ec955
  {
  }

  function Zeros(): seq<seq<bv8>> {
    seq(8, i => [0, 0, 0, 0])
  }

  /** RFC 3720, appendix B.4: 32 zero bytes. */
  lemma ZerosVector()
    ensures Value(Join(Zeros())) == 0x8a9136aa
  {
    hide Step32, Steps, Xor, BitSerial, Le, Join, Not;
    FourBytes(0, 0, 0, 0);
    ZerosTurns();
    NotIs();
    RowByRow(Zeros(), [0xffffffff, 0xb798b438, 0x73d74d75, 0xd49f4aa2, 0xbd8f6515,
      0x433aa9c1, 0x7b041311, 0x08363896, 0x756ec955]);
  }

  lemma OnesTurns()
    ensures Step32(Xor(0xffffffff, 0xffffffff)) == 0x00000000 && Step32(Xor(0x00000000, 0xffffffff)) == 0xb798b438
    ensures Step32(Xor(0xb798b438, 0xffffffff)) == 0xc44ff94d && Step32(Xor(0xc44ff94d, 0xffffffff)) == 0x10d0b3ef
    ensures Step32(Xor(0x10d0b3ef, 0xffffffff)) == 0xad5fd6fa && Step32(Xor(0xad5fd6fa, 0xffffffff)) == 0xee657f3b
    ensures Step32(Xor(0xee657f3b, 0xffffffff)) == 0x95616c2a && Step32(Xor(0x95616c2a, 0xffffffff)) == 0x9d5754bc
  {
  }

  function Ones(): seq<seq<bv8>> {
    seq(8, i => [0xff, 0xff, 0xff, 0xff])
  }

  /** RFC 3720, appendix B.4: 32 bytes of ones. */
  lemma OnesVector()
    ensures Value(Join(Ones())) == 0x62a8ab43
  {
    hide Step32, Steps, Xor, BitSerial, Le, Join, Not;
    FourBytes(0xff, 0xff, 0xff, 0xff);
    OnesTurns();
    NotIs();
    RowByRow(Ones(), [0xffffffff, 0x00000000, 0xb798b438, 0xc44ff94d, 0x10d0b3ef,
      0xad5fd6fa, 0xee657f3b, 0x95616c2a, 0x9d5754bc]);
  }

  lemma AscendingTurns()
    ensures Step32(Xor(0xffffffff, 0x03020100)) == 0x26cce55c && Step32(Xor(0x26cce55c, 0x07060504)) == 0x75d343c4
    ensures Step32(Xor(0x75d343c4, 0x0b0a0908)) == 0xac7c5545 && Step32(Xor(0xac7c5545, 0x0f0e0d0c)) == 0x2636f714
    ensures Step32(Xor(0x2636f714, 0x13121110)) == 0x33861419 && Step32(Xor(0x33861419, 0x17161514)) == 0xd643786a
    ensures Step32(Xor(0xd643786a, 0x1b1a1918)) == 0x9b21363e && Step32(Xor(0x9b21363e, 0x1f1e1d1c)) == 0xb92286b1
  {
  }

  function Ascending(): seq<seq<bv8>> {
    [[0, 1, 2, 3], [4, 5, 6, 7], [8, 9, 10, 11], [12, 13, 14, 15],
     [16, 17, 18, 19], [20, 21, 22, 23], [24, 25, 26, 27], [28, 29, 30, 31]]
  }

  /** RFC 3720, appendix B.4: the bytes 0 to 31. */
  lemma AscendingVector()
    ensures Value(Join(Ascending())) == 0x46dd794e
  {
    hide Step32, Steps, Xor, BitSerial, Le, Join, Not;
    FourBytes(0, 1, 2, 3);
    FourBytes(4, 5, 6, 7);
    FourBytes(8, 9, 10, 11);
    FourBytes(12, 13, 14, 15);
    FourBytes(16, 17, 18, 19);
    FourBytes(20, 21, 22, 23);
    FourBytes(24, 25, 26, 27);
    FourBytes(28, 29, 30, 31);
    AscendingTurns();
    NotIs();
    RowByRow(Ascending(), [0xffffffff, 0x26cce55c, 0x75d343c4, 0xac7c5545, 0x2636f714,
      0x33861419, 0xd643786a, 0x9b21363e, 0xb92286b1]);
  }
}
