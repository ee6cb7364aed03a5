/** Prefix-compressed blocks, after src/block.cpp.

    Each entry stores how many bytes of its key it shares with the one before, except at
    restart points, where the key is stored whole so that a search can start there. */
module Blocks {
  import opened ByteStrings
  import opened Coding
  import opened InternalKeys
  import opened WriteBatches

  datatype Pair = Pair(key: Bytes, value: Bytes)

  // ------------------------------------------------------------------- format

  /** How many leading bytes two keys share. */
  function Common(a: Bytes, b: Bytes): (n: nat)
    ensures n <= |a| && n <= |b| && a[..n] == b[..n]
  {
    if a == [] || b == [] || a[0] != b[0] then 0 else 1 + Common(a[1..], b[1..])
  }

  /** No more bytes could be shared. */
  lemma {:induction false} CommonIsLongest(a: Bytes, b: Bytes)
    ensures var n := Common(a, b); n < |a| && n < |b| ==> a[n] != b[n]
    decreases |a|
  {
    if a != [] && b != [] && a[0] == b[0] { CommonIsLongest(a[1..], b[1..]); }
  }

  function EncodeEntry(prev: Bytes, e: Pair): (r: Bytes)
    ensures |r| >= 3
  {
    var shared := Common(prev, e.key);
    Varint(shared) + Varint(|e.key| - shared) + Varint(|e.value|) + e.key[shared..] + e.value
  }

  /** The key entry `i` is compressed against: none at a restart point. */
  function Previous(es: seq<Pair>, i: nat, interval: nat): Bytes
    requires i < |es| && interval >= 1
  {
    if i % interval == 0 then [] else es[i - 1].key
  }

  /** The first `n` entries. */
  function Body(es: seq<Pair>, n: nat, interval: nat): Bytes
    requires n <= |es| && interval >= 1
  {
    if n == 0 then [] else Body(es, n - 1, interval) + EncodeEntry(Previous(es, n - 1, interval), es[n - 1])
  }

  /** Where entry `i` starts. */
  function Offset(es: seq<Pair>, i: nat, interval: nat): nat
    requires i <= |es| && interval >= 1
  {
    |Body(es, i, interval)|
  }

  /** One restart point per `interval` entries, and one even in an empty block. */
  function RestartCount(n: nat, interval: nat): (c: nat)
    requires interval >= 1
    ensures c >= 1
  {
    if n == 0 then 1 else (n - 1) / interval + 1
  }

  lemma RestartBelow(n: nat, interval: nat, j: nat)
    requires interval >= 1 && j < RestartCount(n, interval)
    ensures j * interval <= n && (n > 0 ==> j * interval < n)
  {
    if n > 0 { DivMono(n - 1, interval, j); }
  }

  lemma DivMono(m: nat, interval: nat, j: nat)
    requires interval >= 1 && j <= m / interval
    ensures j * interval <= m
  {
    assert m == m / interval * interval + m % interval;
    MulMono(j, m / interval, interval);
  }

  lemma MulMono(a: nat, b: nat, c: nat)
    requires a <= b
    ensures a * c <= b * c
  {
  }

  function Restarts(es: seq<Pair>, interval: nat): (r: seq<nat>)
    requires interval >= 1
    ensures |r| == RestartCount(|es|, interval)
  {
    seq(RestartCount(|es|, interval), j requires 0 <= j < RestartCount(|es|, interval) =>
      RestartBelow(|es|, interval, j); Offset(es, j * interval, interval))
  }

  function Words(ns: seq<nat>): (r: Bytes)
    ensures |r| == 4 * |ns|
  {
    if ns == [] then [] else Words(ns[..|ns| - 1]) + Fixed32(ns[|ns| - 1])
  }

  function Finished(es: seq<Pair>, interval: nat): Bytes
    requires interval >= 1
  {
    Body(es, |es|, interval) + Words(Restarts(es, interval)) + Fixed32(|Restarts(es, interval)|)
  }

  predicate Fits(e: Pair) {
    |e.key| < TWO32 && |e.value| < TWO32
  }

  /** Lengths and offsets fit in 32 bits. */
  predicate AllFit(es: seq<Pair>, interval: nat)
    requires interval >= 1
  {
    (forall i :: 0 <= i < |es| ==> Fits(es[i])) && |Finished(es, interval)| < TWO32
  }

  // ---------------------------------------------------------------- arithmetic

  lemma RestartNext(n: nat, interval: nat)
    requires interval >= 1 && n > 0
    ensures n % interval == 0 <==> (n - 1) % interval + 1 == interval
    ensures n % interval == 0 ==> RestartCount(n + 1, interval) == RestartCount(n, interval) + 1
    ensures n % interval == 0 ==> RestartCount(n, interval) * interval == n
    ensures n % interval != 0 ==> RestartCount(n + 1, interval) == RestartCount(n, interval)
    ensures n % interval != 0 ==> n % interval == (n - 1) % interval + 1
  {
    var q, r := (n - 1) / interval, (n - 1) % interval;
    assert n - 1 == q * interval + r;
    if r + 1 == interval {
      Division(n, interval, q + 1, 0);
    } else {
      Division(n, interval, q, r + 1);
    }
  }

  /** Quotient and remainder are unique. */
  lemma Division(n: nat, d: nat, q: nat, r: nat)
    requires d >= 1 && n == q * d + r && r < d
    ensures n / d == q && n % d == r
  {
    var q', r' := n / d, n % d;
    assert n == q' * d + r';
    if q' > q {
      MulMono(q + 1, q', d);
    } else if q' < q {
      MulMono(q' + 1, q, d);
    }
  }

  // ------------------------------------------------------------------ building

  lemma {:induction false} BodyPrefix(es: seq<Pair>, more: seq<Pair>, n: nat, interval: nat)
    requires interval >= 1 && n <= |es|
    ensures Body(es + more, n, interval) == Body(es, n, interval)
    decreases n
  {
    hide EncodeEntry;
    if n > 0 {
      BodyPrefix(es, more, n - 1, interval);
      assert (es + more)[n - 1] == es[n - 1];
      assert n > 1 ==> (es + more)[n - 2] == es[n - 2];
    }
  }

  lemma RestartsAppend(es: seq<Pair>, e: Pair, interval: nat)
    requires interval >= 1
    ensures Restarts(es + [e], interval) ==
      if es != [] && |es| % interval == 0 then Restarts(es, interval) + [Offset(es, |es|, interval)]
        else Restarts(es, interval)
  {
    hide Body;
    var all := es + [e];
    if es != [] { RestartNext(|es|, interval); }
    forall j | 0 <= j < RestartCount(|es|, interval)
      ensures j * interval <= |es| && Body(all, j * interval, interval) == Body(es, j * interval, interval)
    {
      RestartBelow(|es|, interval, j);
      BodyPrefix(es, [e], j * interval, interval);
    }
    BodyPrefix(es, [e], |es|, interval);
  }

  lemma NothingShared(key: Bytes)
    ensures Common([], key) == 0
  {
  }

  /** What one more entry does to the block, seen through the number of entries since the
      last restart point. */
  lemma AddFacts(es: seq<Pair>, e: Pair, interval: nat)
    requires interval >= 1
    ensures var n, all := |es|, es + [e];
      var since := if n == 0 then 0 else (n - 1) % interval + 1;
      && Body(all, n + 1, interval) == Body(es, n, interval) + EncodeEntry(Previous(all, n, interval), e)
      && (since < interval ==>
          && Restarts(all, interval) == Restarts(es, interval) && n % interval == since
          && Previous(all, n, interval) == if n == 0 then [] else es[n - 1].key)
      && (since >= interval ==>
          && Restarts(all, interval) == Restarts(es, interval) + [|Body(es, n, interval)|] && n % interval == 0
          && Previous(all, n, interval) == [])
  {
    hide Restarts, EncodeEntry;
    var n, all := |es|, es + [e];
    RestartsAppend(es, e, interval);
    BodyPrefix(es, [e], n, interval);
    if n > 0 { RestartNext(n, interval); }
  }

  /** One entry's bytes, its key compressed against `prev`. */
  method PutEntry(buffer: Bytes, shared: nat, e: Pair, ghost prev: Bytes) returns (b: Bytes)
    requires Fits(e) && shared == Common(prev, e.key)
    ensures b == buffer + EncodeEntry(prev, e)
  {
    hide Varint, Common;
    b := PutVarint32(buffer, shared);
    b := PutVarint32(b, |e.key| - shared);
    b := PutVarint32(b, |e.value|);
    b := b + e.key[shared..] + e.value;
  }

  class BlockBuilder {
    const interval: nat
    var buffer: Bytes
    var restarts: seq<nat>
    var lastKey: Bytes
    var sinceRestart: nat
    var entries: nat
    ghost var es: seq<Pair>

    ghost predicate Valid()
      reads this
    {
      && interval >= 1 && entries == |es|
      && buffer == Body(es, |es|, interval) && restarts == Restarts(es, interval)
      && (es == [] ==> lastKey == [] && sinceRestart == 0)
      && (es != [] ==> lastKey == es[|es| - 1].key && sinceRestart == (|es| - 1) % interval + 1)
    }

    constructor (restartInterval: int)
      ensures Valid() && es == [] && interval == if restartInterval < 1 then 1 else restartInterval
    {
      interval := if restartInterval < 1 then 1 else restartInterval;
      buffer, restarts, lastKey, sinceRestart, entries, es := [], [0], [], 0, 0, [];
    }

    /** How much of the previous key the new one reuses. */
    method SharedWith(key: Bytes) returns (shared: nat)
      ensures shared == Common(lastKey, key)
    {
      shared := 0;
      while shared < |lastKey| && shared < |key| && lastKey[shared] == key[shared]
        invariant shared <= |lastKey| && shared <= |key|
        invariant Common(lastKey, key) == shared + Common(lastKey[shared..], key[shared..])
        decreases |key| - shared
      {
        assert lastKey[shared..][1..] == lastKey[shared + 1..] && key[shared..][1..] == key[shared + 1..];
        shared := shared + 1;
      }
    }

    method Add(key: Bytes, value: Bytes)
      requires Valid() && Fits(Pair(key, value))
      modifies this
      ensures Valid() && es == old(es) + [Pair(key, value)]
    {
      hide Body, Varint, Restarts, EncodeEntry, Previous, Common;
      ghost var e := Pair(key, value);
      AddFacts(es, e, interval);
      var shared := 0;
      if sinceRestart < interval {
        shared := SharedWith(key);
      } else {
        restarts := restarts + [|buffer|];
        sinceRestart := 0;
        assert Common([], key) == 0 by { NothingShared(key); }
      }
      var b := PutEntry(buffer, shared, Pair(key, value), Previous(es + [e], |es|, interval));
      buffer, lastKey, sinceRestart, entries, es := b, key, sinceRestart + 1, entries + 1, es + [e];
    }

    /** Hands over the block and starts afresh. */
    method Finish() returns (block: Bytes)
      requires Valid()
      modifies this
      ensures Valid() && es == [] && block == Finished(old(es), interval)
    {
      hide Body, Restarts;
      block := buffer;
      for i := 0 to |restarts|
        invariant block == buffer + Words(restarts[..i])
      {
        assert restarts[..i + 1][..i] == restarts[..i];
        block := block + Fixed32(restarts[i]);
      }
      assert restarts[..|restarts|] == restarts;
      block := block + Fixed32(|restarts|);
      Reset();
    }

    method Reset()
      requires interval >= 1
      modifies this
      ensures Valid() && es == []
    {
      buffer, restarts, lastKey, sinceRestart, entries, es := [], [0], [], 0, 0, [];
      assert Restarts([], interval) == [0];
    }

    /** The size the block would have if finished now. */
    method CurrentSizeEstimate() returns (n: nat)
      requires Valid()
      ensures n == |Finished(es, interval)|
    {
      n := |buffer| + (|restarts| + 1) * 4;
    }
  }

  lemma BodyNext(es: seq<Pair>, n: nat, interval: nat)
    requires interval >= 1 && n < |es|
    ensures Body(es, n + 1, interval) == Body(es, n, interval) + EncodeEntry(Previous(es, n, interval), es[n])
  {
  }

  // -------------------------------------------------------------- one entry

  datatype BlockError = Truncated | SharesTooMuch

  /** What is found at an offset: the end of the entries, garbage, or an entry whose key
      reuses a prefix of the previous one. */
  datatype Found = AtEnd | Corrupt(error: BlockError) | Row(key: Bytes, value: Bytes, next: nat)

  /** The three lengths in front of an entry, and where its bytes start. */
  datatype Lengths = Lengths(shared: nat, rest: nat, value: nat, at: nat)

  function ParseLengths(data: Bytes, size: nat, p: nat): (r: Option<Lengths>)
    requires size <= |data|
    ensures r.Some? ==> r.value.at <= size
  {
    match GetVarint(data, p, size)
    case None => None
    case Some((shared, a)) =>
      match GetVarint(data, a, size)
      case None => None
      case Some((rest, b)) =>
        match GetVarint(data, b, size)
        case None => None
        case Some((len, c)) =>
          GetVarintBounds(data, b, size);
          Some(Lengths(shared, rest, len, c))
  }

  function Parse(data: Bytes, size: nat, prev: Bytes, p: nat): Found
    requires size <= |data|
  {
    if p >= size then AtEnd
    else
      match ParseLengths(data, size, p)
      case None => Corrupt(Truncated)
      case Some(n) =>
        if size - n.at < n.rest + n.value then Corrupt(Truncated)
        else if n.shared > |prev| then Corrupt(SharesTooMuch)
        else Row(
          prev[..n.shared] + data[n.at..n.at + n.rest],
          data[n.at + n.rest..n.at + n.rest + n.value],
          n.at + n.rest + n.value)
  }

  lemma EntryIs(prev: Bytes, e: Pair)
    ensures var n := Common(prev, e.key);
      && EncodeEntry(prev, e) == Varint(n) + Varint(|e.key| - n) + Varint(|e.value|) + e.key[n..] + e.value
      && |EncodeEntry(prev, e)| == |Varint(n)| + |Varint(|e.key| - n)| + |Varint(|e.value|)| + |e.key| - n + |e.value|
  {
    hide Varint, Common;
  }

  /** An encoded entry parses back whenever the shared prefix is at hand. */
  lemma ParseRoundTrip(data: Bytes, size: nat, prev: Bytes, p: nat, base: Bytes, e: Pair)
    requires size <= |data| && p + |EncodeEntry(base, e)| <= size && Holds(data, p, EncodeEntry(base, e)) && Fits(e)
    requires Common(base, e.key) <= |prev| && prev[..Common(base, e.key)] == e.key[..Common(base, e.key)]
    ensures Parse(data, size, prev, p) == Row(e.key, e.value, p + |EncodeEntry(base, e)|)
  {
    hide Varint, Common, Parse, Holds, EncodeEntry;
    var shared := Common(base, e.key);
    var a, b, c := Varint(shared), Varint(|e.key| - shared), Varint(|e.value|);
    EntryIs(base, e);
    HoldsFive(data, p, a, b, c, e.key[shared..], e.value);
    var n := Lengths(shared, |e.key| - shared, |e.value|, p + |a| + |b| + |c|);
    LengthsRoundTrip(data, size, p, n, a, b, c);
    hide ParseLengths;
    ParseParts(data, size, prev, p, n, e.key[shared..], e.value);
    assert prev[..shared] + e.key[shared..] == e.key;
  }

  /** Three lengths and two strings in a row. */
  lemma ParseParts(data: Bytes, size: nat, prev: Bytes, p: nat, n: Lengths, k: Bytes, v: Bytes)
    requires p < size <= |data| && ParseLengths(data, size, p) == Some(n) && n.rest == |k| && n.value == |v|
    requires n.shared <= |prev| && n.at + |k| + |v| <= size && Holds(data, n.at, k) && Holds(data, n.at + |k|, v)
    ensures Parse(data, size, prev, p) == Row(prev[..n.shared] + k, v, n.at + |k| + |v|)
  {
    hide ParseLengths, Holds, Parse;
    HoldsIs(data, n.at, k);
    HoldsIs(data, n.at + |k|, v);
    ParseRow(data, size, prev, p, n);
  }

  lemma HoldsIs(s: Bytes, p: nat, x: Bytes)
    requires Holds(s, p, x)
    ensures p + |x| <= |s| && s[p..p + |x|] == x
  {
  }

  lemma ParseRow(data: Bytes, size: nat, prev: Bytes, p: nat, n: Lengths)
    requires p < size <= |data| && ParseLengths(data, size, p) == Some(n) && n.at + n.rest + n.value <= size
    requires n.shared <= |prev|
    ensures Parse(data, size, prev, p)
      == Row(
        prev[..n.shared] + data[n.at..n.at + n.rest],
        data[n.at + n.rest..n.at + n.rest + n.value],
        n.at + n.rest + n.value)
  {
    hide ParseLengths;
  }

  lemma LengthsRoundTrip(data: Bytes, size: nat, p: nat, n: Lengths, a: Bytes, b: Bytes, c: Bytes)
    requires a == Varint(n.shared) && b == Varint(n.rest) && c == Varint(n.value)
    requires n.at == p + |a| + |b| + |c| <= size <= |data| && n.shared < TWO32 && n.rest < TWO32 && n.value < TWO32
    requires Holds(data, p, a) && Holds(data, p + |a|, b) && Holds(data, p + |a| + |b|, c)
    ensures p < size && ParseLengths(data, size, p) == Some(n)
  {
    hide GetVarint, Varint, Holds;
    VarintRoundTrip(data, p, size, n.shared);
    VarintRoundTrip(data, p + |a|, size, n.rest);
    VarintRoundTrip(data, p + |a| + |b|, size, n.value);
  }

  // ------------------------------------------------------------------ the block

  function CountField(s: Bytes): nat
    requires |s| >= 4
  {
    DecodeFixed32(s, |s| - 4)
  }

  /** Bytes before the restart array. */
  function EntriesSize(s: Bytes): nat
    requires |s| >= 4 && (CountField(s) + 1) * 4 <= |s|
  {
    |s| - (CountField(s) + 1) * 4
  }

  function RestartAt(s: Bytes, j: nat): nat
    requires |s| >= 4 && (CountField(s) + 1) * 4 <= |s| && j < CountField(s)
  {
    DecodeFixed32(s, EntriesSize(s) + 4 * j)
  }

  /** What the constructor demands of a block. */
  ghost predicate WellFormed(s: Bytes) {
    && |s| >= 4 && CountField(s) > 0 && (CountField(s) + 1) * 4 <= |s|
    && forall j :: 0 <= j < CountField(s) ==> RestartAt(s, j) <= EntriesSize(s)
  }

  lemma {:induction false} WordAt(ns: seq<nat>, j: nat)
    requires j < |ns|
    ensures Holds(Words(ns), 4 * j, Fixed32(ns[j]))
    decreases |ns|
  {
    var n := |ns| - 1;
    var front := Words(ns[..n]);
    if j < n {
      WordAt(ns[..n], j);
      assert Words(ns)[4 * j..4 * j + 4] == front[4 * j..4 * j + 4];
    } else {
      assert Words(ns)[4 * n..4 * n + 4] == Fixed32(ns[n]);
    }
  }

  /** Reading the trailer of a finished block. */
  lemma FinishedFields(es: seq<Pair>, interval: nat)
    requires interval >= 1 && AllFit(es, interval)
    ensures var s := Finished(es, interval);
      && |s| >= 8 && CountField(s) == RestartCount(|es|, interval) && (CountField(s) + 1) * 4 <= |s|
      && EntriesSize(s) == Offset(es, |es|, interval)
  {
    hide Body, Restarts, Fixed32, DecodeFixed32;
    var s := Finished(es, interval);
    var c := RestartCount(|es|, interval);
    assert Holds(s, |s| - 4, Fixed32(c));
    Fixed32RoundTrip(s, |s| - 4, c);
  }

  /** Restart point `j` of block `s` is where entry `j * interval` starts. */
  ghost predicate RestartReads(s: Bytes, es: seq<Pair>, interval: nat, j: nat) {
    && |s| >= 4 && (CountField(s) + 1) * 4 <= |s| && j < CountField(s)
    && interval >= 1 && j * interval <= |es|
    && RestartAt(s, j) == Offset(es, j * interval, interval) && RestartAt(s, j) <= EntriesSize(s)
  }

  lemma FinishedRestart(es: seq<Pair>, interval: nat, j: nat)
    requires interval >= 1 && AllFit(es, interval) && j < RestartCount(|es|, interval)
    ensures RestartReads(Finished(es, interval), es, interval, j)
  {
    hide Body, Fixed32, DecodeFixed32, AllFit, CountField;
    FinishedFields(es, interval);
    RestartBelow(|es|, interval, j);
    BodyMono(es, j * interval, |es|, interval);
    var s, rs := Finished(es, interval), Restarts(es, interval);
    var at := |Body(es, |es|, interval)|;
    WordAt(rs, j);
    HoldsWithin(Body(es, |es|, interval), Words(rs), Fixed32(|rs|), 4 * j, Fixed32(rs[j]));
    FitsBelow(es, interval);
    Fixed32RoundTrip(s, at + 4 * j, rs[j]);
  }

  lemma FitsBelow(es: seq<Pair>, interval: nat)
    requires interval >= 1 && AllFit(es, interval)
    ensures |Body(es, |es|, interval)| < TWO32
  {
    hide Body, Restarts;
  }

  lemma {:induction false} BodyMono(es: seq<Pair>, m: nat, n: nat, interval: nat)
    requires interval >= 1 && m <= n <= |es|
    ensures Body(es, m, interval) <= Body(es, n, interval)
    decreases n - m
  {
    hide EncodeEntry, Previous;
    if m < n { BodyMono(es, m, n - 1, interval); }
  }

  lemma FinishedWellFormed(es: seq<Pair>, interval: nat)
    requires interval >= 1 && AllFit(es, interval)
    ensures WellFormed(Finished(es, interval))
  {
    hide AllFit, Finished, RestartAt, CountField, EntriesSize;
    FinishedFields(es, interval);
    forall j | 0 <= j < RestartCount(|es|, interval)
      ensures RestartAt(Finished(es, interval), j) <= EntriesSize(Finished(es, interval))
    {
      FinishedRestart(es, interval, j);
    }
  }

  lemma EntryInBlock(es: seq<Pair>, interval: nat, i: nat)
    requires interval >= 1 && i < |es|
    ensures Holds(Finished(es, interval), Offset(es, i, interval), EncodeEntry(Previous(es, i, interval), es[i]))
    ensures Offset(es, i, interval) + |EncodeEntry(Previous(es, i, interval), es[i])|
      == Offset(es, i + 1, interval) <= Offset(es, |es|, interval)
  {
    hide EncodeEntry, Restarts, Previous;
    BodyMono(es, i + 1, |es|, interval);
    BodyNext(es, i, interval);
    var s, b := Finished(es, interval), Body(es, i + 1, interval);
    var x := EncodeEntry(Previous(es, i, interval), es[i]);
    assert s[|b| - |x|..|b|] == b[|b| - |x|..] == x;
  }

  /** Parsing at an entry's offset yields that entry, given the key before it, and at a restart
      point given any key at all. */
  lemma ParseAt(es: seq<Pair>, interval: nat, i: nat, prev: Bytes)
    requires interval >= 1 && AllFit(es, interval) && i < |es|
    requires i % interval == 0 || (i > 0 && prev == es[i - 1].key)
    ensures var s := Finished(es, interval);
      && |s| >= 4 && (CountField(s) + 1) * 4 <= |s|
      && Parse(s, EntriesSize(s), prev, Offset(es, i, interval))
        == Row(es[i].key, es[i].value, Offset(es, i + 1, interval))
  {
    hide Finished, Body, EncodeEntry, CountField, Parse, Common;
    FinishedFields(es, interval);
    EntryInBlock(es, interval, i);
    if i % interval == 0 { NothingShared(es[i].key); }
    ParseRoundTrip(Finished(es, interval), EntriesSize(Finished(es, interval)), prev, Offset(es, i, interval),
      Previous(es, i, interval), es[i]);
  }

  // -------------------------------------------------------------------- reading

  ghost predicate KeysSorted(es: seq<Pair>) {
    && (forall i :: 0 <= i < |es| ==> |es[i].key| >= 8)
    && (forall i, j :: 0 <= i < j < |es| ==> ILess(es[i].key, es[j].key))
  }

  /** Where a search for `target` must land: the first key not before it. */
  ghost predicate IsSeekPoint(es: seq<Pair>, target: Bytes, i: nat)
    requires KeysSorted(es) && |target| >= 8
  {
    && i <= |es|
    && (forall j :: 0 <= j < i ==> ILess(es[j].key, target))
    && (forall j :: i <= j < |es| ==> !ILess(es[j].key, target))
  }

  lemma ILessIsOrder(a: Bytes, b: Bytes, c: Bytes)
    requires |a| >= 8 && |b| >= 8 && |c| >= 8
    ensures ILess(a, b) && ILess(b, c) ==> ILess(a, c)
    ensures !(ILess(a, b) && ILess(b, a))
  {
    hide Less, ExtractTag, ExtractUserKey;
    LessIsOrder();
  }

  /** Everything up to an entry below the target is below it. */
  lemma BelowTarget(es: seq<Pair>, target: Bytes, i: nat)
    requires KeysSorted(es) && |target| >= 8 && i < |es| && ILess(es[i].key, target)
    ensures forall j :: 0 <= j <= i ==> ILess(es[j].key, target)
  {
    hide ILess;
    forall j | 0 <= j <= i ensures ILess(es[j].key, target) {
      if j < i { ILessIsOrder(es[j].key, es[i].key, target); }
    }
  }

  lemma AboveTarget(es: seq<Pair>, target: Bytes, i: nat)
    requires KeysSorted(es) && |target| >= 8 && i < |es| && !ILess(es[i].key, target)
    ensures forall j :: i <= j < |es| ==> !ILess(es[j].key, target)
  {
    hide ILess;
    forall j | i <= j < |es| ensures !ILess(es[j].key, target) {
      if j > i && ILess(es[j].key, target) { ILessIsOrder(es[i].key, es[j].key, target); }
    }
  }

  class BlockReader {
    const contents: Bytes
    var ok: bool
    var size: nat             // entries_size_
    var numRestarts: nat
    var next: nat
    var key: Bytes
    var value: Bytes
    var valid: bool
    var error: Option<BlockError>

    /** The trailer has been read. */
    ghost predicate Ready()
      reads this
    {
      ok && WellFormed(contents) && size == EntriesSize(contents) && numRestarts == CountField(contents)
    }

    /** The block is the one built from `es`. */
    ghost predicate Over(es: seq<Pair>, interval: nat)
      reads this
    {
      Ready() && interval >= 1 && AllFit(es, interval) && contents == Finished(es, interval) && error.None?
    }

    /** The cursor stands on entry `i`, or past the last one. */
    ghost predicate IsAt(es: seq<Pair>, interval: nat, i: nat)
      reads this
      requires interval >= 1
    {
      && i <= |es| && (valid <==> i < |es|)
      && (i < |es| ==> key == es[i].key && value == es[i].value && next == Offset(es, i + 1, interval))
    }

    ghost predicate AtRestart(es: seq<Pair>, interval: nat, j: nat)
      reads this
    {
      interval >= 1 && j * interval <= |es| && IsAt(es, interval, j * interval)
    }

    /** Rejects a block whose restart array cannot be right. */
    constructor (contents: Bytes)
      ensures this.contents == contents && ok == WellFormed(contents)
      ensures ok ==> Ready() && !valid && error.None?
    {
      this.contents := contents;
      size, numRestarts, next, key, value, valid, error := 0, 0, 0, [], [], false, None;
      ok := false;
      new;
      if |contents| < 4 { return; }
      var n := CountField(contents);
      if n == 0 || (n + 1) * 4 > |contents| { return; }
      size, numRestarts := |contents| - (n + 1) * 4, n;
      for j := 0 to n
        invariant forall i :: 0 <= i < j ==> RestartAt(contents, i) <= size
        invariant size == EntriesSize(contents) && numRestarts == n && !ok && !valid && error.None?
      {
        if RestartAt(contents, j) > size { return; }
      }
      ok := true;
    }

    /** Decodes the entry at `offset`, reusing what it shares with the current key. */
    method ParseEntryAt(offset: nat) returns (found: bool)
      requires Ready()
      modifies this`next, this`key, this`value, this`valid, this`error
      ensures Ready() && found == valid
      ensures match Parse(contents, size, old(key), offset)
        case AtEnd => !valid && key == old(key) && error == old(error)
        case Corrupt(e) => !valid && key == old(key) && error == Some(e)
        case Row(k, v, n) => valid && key == k && value == v && next == n && error == old(error)
    {
      hide ParseLengths, WellFormed;
      found := false;
      if offset >= size {
        valid := false;
        return;
      }
      var n := ReadLengths(offset);
      if n.None? || size - n.value.at < n.value.rest + n.value.value {
        error, valid := Some(Truncated), false;
        return;
      }
      var Lengths(shared, rest, len, at) := n.value;
      if shared > |key| {
        error, valid := Some(SharesTooMuch), false;
        return;
      }
      key := key[..shared] + contents[at..at + rest];
      value := contents[at + rest..at + rest + len];
      next := at + rest + len;
      valid, found := true, true;
    }

    method ReadLengths(offset: nat) returns (n: Option<Lengths>)
      requires size <= |contents|
      ensures n == ParseLengths(contents, size, offset)
    {
      hide GetVarint;
      var shared, rest := 0, 0;
      var p := GetVarint32Ptr(contents, offset, size);
      if p.Some? {
        shared := p.value.0;
        p := GetVarint32Ptr(contents, p.value.1, size);
      }
      if p.Some? {
        rest := p.value.0;
        p := GetVarint32Ptr(contents, p.value.1, size);
      }
      if p.None? { return None; }
      n := Some(Lengths(shared, rest, p.value.0, p.value.1));
    }

    /** Jumps to a restart point. */
    method SeekToRestart(j: nat, ghost es: seq<Pair>, ghost interval: nat)
      requires Over(es, interval) && j < numRestarts
      modifies this`next, this`key, this`value, this`valid, this`error
      ensures Over(es, interval) && AtRestart(es, interval, j)
    {
      hide Finished, AllFit, Offset, Parse, CountField, EntriesSize, RestartAt, WellFormed, RestartCount;
      FinishedFields(es, interval);
      FinishedRestart(es, interval, j);
      key := [];
      if es != [] {
        RestartIsEntry(|es|, interval, j);
        ParseAt(es, interval, j * interval, []);
      } else {
        EmptyBlock(es, interval, contents, []);
        assert j * interval == 0;
      }
      var found := ParseEntryAt(RestartAt(contents, j));
    }

    method SeekToFirst(ghost es: seq<Pair>, ghost interval: nat)
      requires Over(es, interval)
      modifies this`next, this`key, this`value, this`valid, this`error
      ensures Over(es, interval) && IsAt(es, interval, 0)
    {
      SeekToRestart(0, es, interval);
    }

    method Next(ghost es: seq<Pair>, ghost interval: nat, ghost i: nat)
      requires Over(es, interval) && IsAt(es, interval, i)
      modifies this`next, this`key, this`value, this`valid, this`error
      ensures Over(es, interval) && IsAt(es, interval, if i < |es| then i + 1 else i)
    {
      hide Finished, AllFit, Offset, Parse, CountField, WellFormed;
      if !valid { return; }
      FinishedFields(es, interval);
      if i + 1 < |es| {
        ParseAt(es, interval, i + 1, key);
      } else {
        ParsePastEnd(contents, size, key, next);
      }
      var found := ParseEntryAt(next);
    }

    /** Positions at the first key at or after `target`, wherever the cursor was. */
    method Seek(target: Bytes, ghost es: seq<Pair>, ghost interval: nat) returns (ghost at: nat)
      requires Over(es, interval) && KeysSorted(es) && |target| >= 8
      modifies this`next, this`key, this`value, this`valid, this`error
      ensures Over(es, interval) && IsSeekPoint(es, target, at) && IsAt(es, interval, at)
    {
      hide Finished, AllFit, Offset, Parse, EntriesSize, RestartAt, WellFormed, ILess, RestartCount;
      FinishedFields(es, interval);
      var left, right := 0, numRestarts - 1;
      while left < right
        invariant Over(es, interval) && 0 <= left <= right < numRestarts
        invariant left > 0 ==> left * interval < |es| && ILess(es[left * interval].key, target)
        decreases right - left
      {
        var mid := left + (right - left + 1) / 2;
        RestartIsEntry(|es|, interval, mid);
        SeekToRestart(mid, es, interval);
        if ILess(key, target) { left := mid; } else { right := mid - 1; }
      }
      SeekToRestart(left, es, interval);
      at := left * interval;
      if left > 0 { BelowTarget(es, target, at); }
      assert left == 0 ==> at == 0;
      while valid && ILess(key, target)
        invariant Over(es, interval) && IsAt(es, interval, at)
        invariant forall j :: 0 <= j < at ==> ILess(es[j].key, target)
        decreases |es| - at
      {
        Next(es, interval, at);
        at := at + 1;
      }
      if at < |es| { AboveTarget(es, target, at); }
    }
  }

  lemma RestartIsEntry(n: nat, interval: nat, j: nat)
    requires interval >= 1 && j < RestartCount(n, interval) && (n > 0 || j > 0)
    ensures j * interval < n && j * interval % interval == 0
  {
    RestartBelow(n, interval, j);
    Division(j * interval, interval, j, 0);
  }

  lemma EmptyBlock(es: seq<Pair>, interval: nat, s: Bytes, prev: Bytes)
    requires es == [] && interval >= 1 && AllFit(es, interval) && s == Finished(es, interval) && |s| >= 4
    requires (CountField(s) + 1) * 4 <= |s|
    ensures Parse(s, EntriesSize(s), prev, Offset(es, 0, interval)) == AtEnd
  {
    hide CountField, Words, Restarts;
    FinishedFields(es, interval);
  }

  lemma ParsePastEnd(data: Bytes, size: nat, prev: Bytes, p: nat)
    requires size <= |data| && p >= size
    ensures Parse(data, size, prev, p) == AtEnd
  {
  }

  /** Draining a block gives back exactly what went into it. */
  method Drain(contents: Bytes, ghost es: seq<Pair>, ghost interval: nat) returns (r: seq<Pair>)
    requires interval >= 1 && AllFit(es, interval) && contents == Finished(es, interval)
    ensures r == es
  {
    hide Finished, AllFit, WellFormed, Offset;
    FinishedWellFormed(es, interval);
    var reader := new BlockReader(contents);
    reader.SeekToFirst(es, interval);
    r := [];
    while reader.valid
      invariant reader.Over(es, interval) && |r| <= |es| && reader.IsAt(es, interval, |r|) && r == es[..|r|]
      decreases |es| - |r|
    {
      ghost var i := |r|;
      r := r + [Pair(reader.key, reader.value)];
      reader.Next(es, interval, i);
    }
  }
}
