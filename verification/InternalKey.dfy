/** Internal keys, after include/lsm/internal_key.h.

    An entry's internal key is its user key followed by an 8-byte tag holding
    (sequence << 8 | type). Order is user key ascending, then tag descending, so the newest
    version of a key comes first. `Before` is that order on entries, `ILess` the same order
    on the encoded bytes. */
module InternalKeys {
  import opened ByteStrings
  import opened Coding

  const MAX_SEQUENCE: nat := 0x100_0000_0000_0000 - 1

  datatype Kind = Deletion | Value

  datatype Entry = Entry(key: Bytes, sn: nat, kind: Kind, value: Bytes)

  function KindByte(kind: Kind): byte {
    if kind.Deletion? then 0 else 1
  }

  function PackTag(sn: nat, kind: Kind): nat {
    sn * 256 + KindByte(kind)
  }

  function Tag(e: Entry): nat {
    PackTag(e.sn, e.kind)
  }

  /** Internal-key order on entries. */
  predicate Before(a: Entry, b: Entry) {
    Less(a.key, b.key) || (a.key == b.key && Tag(a) > Tag(b))
  }

  /** Strictly ascending, as TableBuilder::Add demands. */
  predicate Sorted(es: seq<Entry>) {
    forall i, j :: 0 <= i < j < |es| ==> Before(es[i], es[j])
  }

  lemma BeforeIsOrder()
    ensures forall a :: !Before(a, a)
    ensures forall a, b, c :: Before(a, b) && Before(b, c) ==> Before(a, c)
    ensures forall a, b :: Before(a, b) ==> !Before(b, a)
    ensures forall a, b :: Before(a, b) || Before(b, a) || (a.key == b.key && Tag(a) == Tag(b))
  {
    hide Less;
    LessIsOrder();
  }

  lemma TagDetermines(a: Entry, b: Entry)
    requires Tag(a) == Tag(b)
    ensures a.sn == b.sn && a.kind == b.kind
  {
    assert Tag(a) / 256 == a.sn && Tag(b) / 256 == b.sn;
  }

  // --------------------------------------------------------------- encoding

  predicate Encodable(e: Entry) {
    e.sn <= MAX_SEQUENCE && |e.key| + 8 < TWO32 && |e.value| < TWO32
  }

  function EncodeInternalKey(key: Bytes, sn: nat, kind: Kind): Bytes {
    key + Fixed64(PackTag(sn, kind))
  }

  function IKey(e: Entry): (r: Bytes)
    ensures |r| == |e.key| + 8
  {
    EncodeInternalKey(e.key, e.sn, e.kind)
  }

  function ExtractUserKey(k: Bytes): Bytes
    requires |k| >= 8
  {
    k[..|k| - 8]
  }

  function ExtractTag(k: Bytes): nat
    requires |k| >= 8
  {
    DecodeFixed64(k, |k| - 8)
  }

  function ExtractSequence(k: Bytes): nat
    requires |k| >= 8
  {
    ExtractTag(k) / 256
  }

  /** CompareInternalKey(a, b) < 0, on bytes. */
  predicate ILess(a: Bytes, b: Bytes)
    requires |a| >= 8 && |b| >= 8
  {
    var ua, ub := ExtractUserKey(a), ExtractUserKey(b);
    Less(ua, ub) || (ua == ub && ExtractTag(a) > ExtractTag(b))
  }

  /** An internal key gives back the user key, sequence and type it was packed from. */
  lemma IKeyRoundTrip(e: Entry)
    requires e.sn <= MAX_SEQUENCE
    ensures ExtractUserKey(IKey(e)) == e.key
    ensures ExtractTag(IKey(e)) == Tag(e)
    ensures ExtractSequence(IKey(e)) == e.sn
    ensures ExtractTag(IKey(e)) % 256 == KindByte(e.kind)
  {
    var k := IKey(e);
    assert Holds(k, |k| - 8, Fixed64(Tag(e)));
    Fixed64RoundTrip(k, |k| - 8, Tag(e));
  }

  /** The encoding is order-preserving: comparing bytes is comparing entries. */
  lemma IKeyOrder(a: Entry, b: Entry)
    requires a.sn <= MAX_SEQUENCE && b.sn <= MAX_SEQUENCE
    ensures ILess(IKey(a), IKey(b)) <==> Before(a, b)
  {
    hide Less, IKey;
    IKeyRoundTrip(a);
    IKeyRoundTrip(b);
  }

  lemma IKeyInjective(a: Entry, b: Entry)
    requires a.sn <= MAX_SEQUENCE && b.sn <= MAX_SEQUENCE && IKey(a) == IKey(b)
    ensures a.key == b.key && a.sn == b.sn && a.kind == b.kind
  {
    IKeyRoundTrip(a);
    IKeyRoundTrip(b);
    TagDetermines(a, b);
  }

  // ----------------------------------------------------------------- seeking

  /** The key a lookup of `key` at sequence `sn` seeks to. */
  function LookupKey(key: Bytes, sn: nat): Entry {
    Entry(key, sn, Value, [])
  }

  /** `p` is where a seek to `target` lands: the first entry not before it. */
  predicate IsSeek(es: seq<Entry>, target: Entry, p: nat) {
    && p <= |es|
    && (forall i :: 0 <= i < p ==> Before(es[i], target))
    && (forall i :: p <= i < |es| ==> !Before(es[i], target))
  }

  predicate Hit(e: Entry, key: Bytes, sn: nat) {
    e.key == key && e.sn <= sn
  }

  /** A seek to a lookup key lands on the newest version visible at `sn`, if its user key
      matches, and otherwise no version is visible. */
  lemma SeekFindsNewest(es: seq<Entry>, key: Bytes, sn: nat, p: nat)
    requires Sorted(es) && IsSeek(es, LookupKey(key, sn), p)
    ensures p < |es| && es[p].key == key ==>
      Hit(es[p], key, sn) && forall i :: 0 <= i < |es| && Hit(es[i], key, sn) ==> es[i].sn <= es[p].sn
    ensures p == |es| || es[p].key != key ==> forall i :: 0 <= i < |es| ==> !Hit(es[i], key, sn)
  {
    hide Less;
    LessIsOrder();
    var target := LookupKey(key, sn);
    forall i | 0 <= i < |es| && Hit(es[i], key, sn) ensures p <= i {
      assert !Before(es[i], target);
    }
    if p < |es| && es[p].key == key {
      assert Tag(es[p]) <= Tag(target);
    } else if p < |es| {
      assert !Before(es[p], target);
      assert Less(key, es[p].key);
    }
  }
}
