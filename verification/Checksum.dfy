/** Checksums of byte strings: the bridge between bytes as numbers and the machine words of
    `Crc32c`. */
module Checksums {
  import opened ByteStrings
  import Crc32c

  function Nibble(n: nat): bv8
    requires n < 16
  {
    match n
    case 0 => 0 case 1 => 1 case 2 => 2 case 3 => 3 case 4 => 4 case 5 => 5 case 6 => 6 case 7 => 7
    case 8 => 8 case 9 => 9 case 10 => 10 case 11 => 11 case 12 => 12 case 13 => 13 case 14 => 14 case _ => 15
  }

  function Join(high: bv8, low: bv8): bv8 {
    (high << 4) | low
  }

  /** A byte as the checksum sees it. */
  function Bits(b: byte): bv8 {
    Join(Nibble(b / 16), Nibble(b % 16))
  }

  function Word(s: Bytes): (r: seq<bv8>)
    ensures |r| == |s|
  {
    seq(|s|, i requires 0 <= i < |s| => Bits(s[i]))
  }

  function Checksum(s: Bytes): (n: nat)
    ensures n < TWO32
  {
    ToNat(Crc32c.Value(Word(s)))
  }

  function ToNat(c: bv32): (n: nat)
    ensures n < TWO32
  {
    c as int
  }

  lemma ToNatInjective(c: bv32, d: bv32)
    requires ToNat(c) == ToNat(d)
    ensures c == d
  {
    assert (c as int) as bv32 == c && (d as int) as bv32 == d;
  }

  predicate Has(x: bv8, mask: bv8) {
    x & mask != 0
  }

  lemma NibbleBits(n: nat)
    requires n < 16
    ensures (Has(Nibble(n), 1) <==> n % 2 == 1) && (Has(Nibble(n), 2) <==> n / 2 % 2 == 1)
    ensures (Has(Nibble(n), 4) <==> n / 4 % 2 == 1) && (Has(Nibble(n), 8) <==> n / 8 % 2 == 1)
  {
  }

  lemma JoinBits(high: bv8, low: bv8)
    requires high & 0xf0 == 0 && low & 0xf0 == 0
    ensures forall m: bv8 :: m == 1 || m == 2 || m == 4 || m == 8 ==> (Has(Join(high, low), m) <==> Has(low, m))
    ensures (Has(Join(high, low), 16) <==> Has(high, 1)) && (Has(Join(high, low), 32) <==> Has(high, 2))
    ensures (Has(Join(high, low), 64) <==> Has(high, 4)) && (Has(Join(high, low), 128) <==> Has(high, 8))
  {
  }

  lemma LowDigits(h: nat, l: nat)
    requires l < 16
    ensures (16 * h + l) % 2 == l % 2 && (16 * h + l) / 2 % 2 == l / 2 % 2
    ensures (16 * h + l) / 4 % 2 == l / 4 % 2 && (16 * h + l) / 8 % 2 == l / 8 % 2
  {
    assert (16 * h + l) / 2 == 8 * h + l / 2;
    assert (16 * h + l) / 4 == 4 * h + l / 4;
    assert (16 * h + l) / 8 == 2 * h + l / 8;
  }

  lemma HighDigits(h: nat, l: nat)
    requires l < 16
    ensures (16 * h + l) / 32 == h / 2 && (16 * h + l) / 64 == h / 4 && (16 * h + l) / 128 == h / 8
  {
  }

  /** The checksum sees a byte's own binary digits. */
  lemma BitsAre(b: byte)
    ensures (Has(Bits(b), 1) <==> b % 2 == 1) && (Has(Bits(b), 2) <==> b / 2 % 2 == 1)
    ensures (Has(Bits(b), 4) <==> b / 4 % 2 == 1) && (Has(Bits(b), 8) <==> b / 8 % 2 == 1)
    ensures (Has(Bits(b), 16) <==> b / 16 % 2 == 1) && (Has(Bits(b), 32) <==> b / 32 % 2 == 1)
    ensures (Has(Bits(b), 64) <==> b / 64 % 2 == 1) && (Has(Bits(b), 128) <==> b / 128 % 2 == 1)
  {
    hide Nibble, Join, Has;
    NibbleSmall(b / 16);
    NibbleSmall(b % 16);
    NibbleBits(b / 16);
    NibbleBits(b % 16);
    JoinBits(Nibble(b / 16), Nibble(b % 16));
    LowDigits(b / 16, b % 16);
    HighDigits(b / 16, b % 16);
  }

  lemma NibbleSmall(n: nat)
    requires n < 16
    ensures Nibble(n) & 0xf0 == 0
  {
  }

  lemma NibbleInjective(m: nat, n: nat)
    requires m < 16 && n < 16 && Nibble(m) == Nibble(n)
    ensures m == n
  {
  }

  lemma JoinInjective(a: bv8, b: bv8, c: bv8, d: bv8)
    requires a & 0xf0 == 0 && b & 0xf0 == 0 && c & 0xf0 == 0 && d & 0xf0 == 0 && Join(a, b) == Join(c, d)
    ensures a == c && b == d
  {
  }

  lemma BitsInjective(a: byte, b: byte)
    requires Bits(a) == Bits(b)
    ensures a == b
  {
    hide Nibble, Join;
    NibbleSmall(a / 16);
    NibbleSmall(a % 16);
    NibbleSmall(b / 16);
    NibbleSmall(b % 16);
    JoinInjective(Nibble(a / 16), Nibble(a % 16), Nibble(b / 16), Nibble(b % 16));
    NibbleInjective(a / 16, b / 16);
    NibbleInjective(a % 16, b % 16);
  }

  lemma WordInjective(a: Bytes, b: Bytes)
    requires Word(a) == Word(b)
    ensures a == b
  {
    hide Bits;
    assert |a| == |b|;
    forall i | 0 <= i < |a| ensures a[i] == b[i] {
      assert Word(a)[i] == Word(b)[i];
      BitsInjective(a[i], b[i]);
    }
  }

  lemma WordConcat(a: Bytes, b: Bytes)
    ensures Word(a + b) == Word(a) + Word(b)
  {
  }

  /** A change confined to four consecutive bytes never goes unnoticed. */
  lemma ChecksumDetects(before: Bytes, w: Bytes, w': Bytes, after: Bytes)
    requires |w| == |w'| <= 4 && w != w'
    ensures Checksum(before + w + after) != Checksum(before + w' + after)
  {
    hide Word, Crc32c.Extend, ToNat;
    if Word(w) == Word(w') { WordInjective(w, w'); }
    WordConcat(before + w, after);
    WordConcat(before, w);
    WordConcat(before + w', after);
    WordConcat(before, w');
    Crc32c.BurstDetected(0, Word(before), Word(w), Word(w'), Word(after));
    if Checksum(before + w + after) == Checksum(before + w' + after) {
      ToNatInjective(Crc32c.Value(Word(before + w + after)), Crc32c.Value(Word(before + w' + after)));
    }
  }
}
