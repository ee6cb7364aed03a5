/** Byte strings, their lexicographic order, and windows into them. */
module ByteStrings {

  type byte = x: int | 0 <= x < 256
  type Bytes = seq<byte>

  const TWO32: nat := 0x1_0000_0000
  const TWO64: nat := 0x1_0000_0000_0000_0000

  datatype Option<+T> = None | Some(value: T)

  // ------------------------------------------------------------------- order

  /** memcmp order, the order of std::string_view::compare. */
  predicate Less(a: Bytes, b: Bytes)
    decreases a
  {
    b != [] && (a == [] || a[0] < b[0] || (a[0] == b[0] && Less(a[1..], b[1..])))
  }

  predicate Leq(a: Bytes, b: Bytes) {
    !Less(b, a)
  }

  lemma {:induction false} LessIrreflexive(a: Bytes)
    ensures !Less(a, a)
    decreases a
  {
    if a != [] { LessIrreflexive(a[1..]); }
  }

  lemma {:induction false} LessTransitive(a: Bytes, b: Bytes, c: Bytes)
    requires Less(a, b) && Less(b, c)
    ensures Less(a, c)
    decreases a
  {
    if a != [] && a[0] == b[0] && b[0] == c[0] { LessTransitive(a[1..], b[1..], c[1..]); }
  }

  lemma {:induction false} LessTotal(a: Bytes, b: Bytes)
    ensures Less(a, b) || a == b || Less(b, a)
    decreases a
  {
    if a != [] && b != [] && a[0] == b[0] {
      LessTotal(a[1..], b[1..]);
      assert a == [a[0]] + a[1..] && b == [b[0]] + b[1..];
    }
  }

  /** All of the above at once: `Less` is a strict total order. */
  lemma LessIsOrder()
    ensures forall a: Bytes :: !Less(a, a)
    ensures forall a: Bytes, b: Bytes :: Less(a, b) ==> !Less(b, a)
    ensures forall a: Bytes, b: Bytes, c: Bytes :: Less(a, b) && Less(b, c) ==> Less(a, c)
    ensures forall a: Bytes, b: Bytes :: Less(a, b) || a == b || Less(b, a)
  {
    hide Less;
    forall a: Bytes ensures !Less(a, a) { LessIrreflexive(a); }
    forall a: Bytes, b: Bytes, c: Bytes | Less(a, b) && Less(b, c) ensures Less(a, c) { LessTransitive(a, b, c); }
    forall a: Bytes, b: Bytes | Less(a, b) ensures !Less(b, a) {
      if Less(b, a) { LessTransitive(a, b, a); LessIrreflexive(a); }
    }
    forall a: Bytes, b: Bytes ensures Less(a, b) || a == b || Less(b, a) { LessTotal(a, b); }
  }

  // ----------------------------------------------------------------- windows

  /** `x` is found in `s` at offset `p`. */
  predicate Holds(s: Bytes, p: nat, x: Bytes) {
    p + |x| <= |s| && s[p..p + |x|] == x
  }

  lemma HoldsConcat(s: Bytes, p: nat, x: Bytes, y: Bytes)
    ensures Holds(s, p, x + y) <==> Holds(s, p, x) && Holds(s, p + |x|, y)
  {
    if Holds(s, p, x + y) {
      assert (x + y)[..|x|] == x && (x + y)[|x|..] == y;
      assert s[p..p + |x|] == s[p..p + |x + y|][..|x|];
      assert s[p + |x|..p + |x| + |y|] == s[p..p + |x + y|][|x|..];
    }
    if Holds(s, p, x) && Holds(s, p + |x|, y) {
      assert s[p..p + |x + y|] == s[p..p + |x|] + s[p + |x|..p + |x| + |y|];
    }
  }

  /** Five fields in a row. */
  lemma HoldsFive(s: Bytes, p: nat, a: Bytes, b: Bytes, c: Bytes, d: Bytes, e: Bytes)
    requires Holds(s, p, a + b + c + d + e)
    ensures Holds(s, p, a) && Holds(s, p + |a|, b) && Holds(s, p + |a| + |b|, c)
    ensures Holds(s, p + |a| + |b| + |c|, d) && Holds(s, p + |a| + |b| + |c| + |d|, e)
  {
    hide Holds;
    HoldsConcat(s, p, a + b + c + d, e);
    HoldsConcat(s, p, a + b + c, d);
    HoldsConcat(s, p, a + b, c);
    HoldsConcat(s, p, a, b);
  }

  /** A window survives whatever is put around the string. */
  lemma HoldsWithin(pre: Bytes, s: Bytes, post: Bytes, p: nat, x: Bytes)
    requires Holds(s, p, x)
    ensures Holds(pre + s + post, |pre| + p, x)
  {
    assert (pre + s + post)[|pre| + p..|pre| + p + |x|] == s[p..p + |x|];
  }
}
