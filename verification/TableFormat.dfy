/** The layout of a table file, after src/sstable.cpp: data blocks in key order, a bloom
    filter over user keys, an index of last keys, and a footer that locates both. Everything
    but the footer is followed by its checksum. */
module TableFormat {
  import opened ByteStrings
  import opened Coding
  import opened InternalKeys
  import opened Scans
  import opened Checksums
  import B = Blocks

  const MAGIC: nat := 0x4c534d5442aa5502
  const FOOTER_SIZE: nat := 40

  // ------------------------------------------------------------------- layout

  function Pairs(es: seq<Entry>): (r: seq<B.Pair>)
    ensures |r| == |es|
  {
    seq(|es|, i requires 0 <= i < |es| => B.Pair(IKey(es[i]), es[i].value))
  }

  function Contents(es: seq<Entry>, interval: nat): Bytes
    requires interval >= 1
  {
    B.Finished(Pairs(es), interval)
  }

  /** A block as it lies in the file. */
  function Stored(c: Bytes): (r: Bytes)
    ensures |r| == |c| + 4
  {
    c + Fixed32(Checksum(c))
  }

  function Data(blocks: seq<seq<Entry>>, n: nat, interval: nat): Bytes
    requires n <= |blocks| && interval >= 1
  {
    if n == 0 then [] else Data(blocks, n - 1, interval) + Stored(Contents(blocks[n - 1], interval))
  }

  /** A block's last key and where it lies. */
  datatype Handle = Handle(last: Bytes, offset: nat, size: nat)

  ghost predicate NonEmpty(blocks: seq<seq<Entry>>) {
    forall i :: 0 <= i < |blocks| ==> blocks[i] != []
  }

  function HandleOf(blocks: seq<seq<Entry>>, i: nat, interval: nat): Handle
    requires i < |blocks| && blocks[i] != [] && interval >= 1
  {
    Handle(IKey(Last(blocks[i])), |Data(blocks, i, interval)|, |Contents(blocks[i], interval)|)
  }

  ghost function Handles(blocks: seq<seq<Entry>>, interval: nat): (r: seq<Handle>)
    requires NonEmpty(blocks) && interval >= 1
    ensures |r| == |blocks|
  {
    seq(|blocks|, i requires 0 <= i < |blocks| => HandleOf(blocks, i, interval))
  }

  function EncodeHandle(h: Handle): Bytes {
    LengthPrefixed(h.last) + Fixed64(h.offset) + Fixed64(h.size)
  }

  function EncodeHandles(hs: seq<Handle>): Bytes {
    if hs == [] then [] else EncodeHandles(hs[..|hs| - 1]) + EncodeHandle(hs[|hs| - 1])
  }

  function Footer(indexOffset: nat, indexSize: nat, bloomOffset: nat, bloomSize: nat): (r: Bytes)
    ensures |r| == FOOTER_SIZE
  {
    Fixed64(indexOffset) + Fixed64(indexSize) + Fixed64(bloomOffset) + Fixed64(bloomSize) + Fixed64(MAGIC)
  }

  /** The whole file, from its parts. */
  function Assemble(data: Bytes, bloom: Bytes, index: Bytes): Bytes {
    data + Stored(bloom) + Stored(index) + Footer(|data| + |bloom| + 4, |index|, |data|, |bloom|)
  }

  ghost function TableFile(blocks: seq<seq<Entry>>, bloom: Bytes, interval: nat): Bytes
    requires NonEmpty(blocks) && interval >= 1
  {
    Assemble(Data(blocks, |blocks|, interval), bloom, EncodeHandles(Handles(blocks, interval)))
  }

  predicate BlockFits(es: seq<Entry>, interval: nat)
    requires interval >= 1
  {
    (forall i :: 0 <= i < |es| ==> Encodable(es[i])) && B.AllFit(Pairs(es), interval)
  }

  /** Every length and offset fits its field. */
  ghost predicate TableFits(blocks: seq<seq<Entry>>, bloom: Bytes, interval: nat)
    requires interval >= 1
  {
    && NonEmpty(blocks) && |TableFile(blocks, bloom, interval)| < TWO64
    && forall i :: 0 <= i < |blocks| ==> BlockFits(blocks[i], interval)
  }

  // ------------------------------------------------------------ reading it back

  /** A stored block, checksum checked, at an offset of the file. */
  ghost predicate StoredAt(file: Bytes, offset: nat, c: Bytes) {
    Holds(file, offset, Stored(c))
  }

  lemma StoredFields(file: Bytes, offset: nat, c: Bytes)
    requires StoredAt(file, offset, c)
    ensures offset + |c| + 4 <= |file| && file[offset..offset + |c|] == c
    ensures DecodeFixed32(file, offset + |c|) == Checksum(c)
  {
    hide Checksum, Fixed32, DecodeFixed32;
    HoldsConcat(file, offset, c, Fixed32(Checksum(c)));
    Fixed32RoundTrip(file, offset + |c|, Checksum(c));
  }

  lemma {:induction false} DataGrows(blocks: seq<seq<Entry>>, m: nat, n: nat, interval: nat)
    requires m <= n <= |blocks| && interval >= 1
    ensures Data(blocks, m, interval) <= Data(blocks, n, interval)
    decreases n - m
  {
    hide Stored, Contents;
    if m < n { DataGrows(blocks, m, n - 1, interval); }
  }

  lemma BlockInFile(blocks: seq<seq<Entry>>, bloom: Bytes, interval: nat, i: nat)
    requires NonEmpty(blocks) && interval >= 1 && i < |blocks|
    ensures StoredAt(TableFile(blocks, bloom, interval), |Data(blocks, i, interval)|, Contents(blocks[i], interval))
  {
    hide Stored, Contents, EncodeHandles, Footer, Data, Handles;
    var d, x := Data(blocks, i, interval), Stored(Contents(blocks[i], interval));
    var all, file := Data(blocks, |blocks|, interval), TableFile(blocks, bloom, interval);
    DataNext(blocks, i, interval);
    DataGrows(blocks, i + 1, |blocks|, interval);
    EndHolds(d, x, all);
    HoldsInPrefix(all, file, |d|, x);
  }

  lemma DataNext(blocks: seq<seq<Entry>>, n: nat, interval: nat)
    requires n < |blocks| && interval >= 1
    ensures Data(blocks, n + 1, interval) == Data(blocks, n, interval) + Stored(Contents(blocks[n], interval))
  {
  }

  lemma EndHolds(d: Bytes, x: Bytes, all: Bytes)
    requires d + x <= all
    ensures Holds(all, |d|, x)
  {
    assert all[|d|..|d| + |x|] == (d + x)[|d|..];
  }

  lemma HoldsInPrefix(s: Bytes, file: Bytes, p: nat, x: Bytes)
    requires s <= file && Holds(s, p, x)
    ensures Holds(file, p, x)
  {
    assert file[p..p + |x|] == s[p..p + |x|];
  }

  lemma TailInFile(data: Bytes, bloom: Bytes, index: Bytes)
    ensures var file := Assemble(data, bloom, index);
      && StoredAt(file, |data|, bloom) && StoredAt(file, |data| + |bloom| + 4, index)
      && Holds(file, |file| - FOOTER_SIZE, Footer(|data| + |bloom| + 4, |index|, |data|, |bloom|))
  {
    hide Stored, Footer;
    var file := Assemble(data, bloom, index);
    var b, x, f := Stored(bloom), Stored(index), Footer(|data| + |bloom| + 4, |index|, |data|, |bloom|);
    assert file[0..|file|] == file;
    HoldsConcat(file, 0, data + b + x, f);
    HoldsConcat(file, 0, data + b, x);
    HoldsConcat(file, 0, data, b);
  }

  /** The footer gives back what it was made from. */
  lemma FooterFields(file: Bytes, p: nat, io: nat, ixs: nat, bo: nat, bs: nat)
    requires Holds(file, p, Footer(io, ixs, bo, bs)) && io < TWO64 && ixs < TWO64 && bo < TWO64 && bs < TWO64
    ensures p + FOOTER_SIZE <= |file|
    ensures DecodeFixed64(file, p) == io && DecodeFixed64(file, p + 8) == ixs
    ensures DecodeFixed64(file, p + 16) == bo && DecodeFixed64(file, p + 24) == bs
    ensures DecodeFixed64(file, p + 32) == MAGIC
  {
    hide Fixed64, DecodeFixed64;
    var a, b, c, d, e := Fixed64(io), Fixed64(ixs), Fixed64(bo), Fixed64(bs), Fixed64(MAGIC);
    HoldsConcat(file, p, a + b + c + d, e);
    HoldsConcat(file, p, a + b + c, d);
    HoldsConcat(file, p, a + b, c);
    HoldsConcat(file, p, a, b);
    Fixed64RoundTrip(file, p, io);
    Fixed64RoundTrip(file, p + 8, ixs);
    Fixed64RoundTrip(file, p + 16, bo);
    Fixed64RoundTrip(file, p + 24, bs);
    Fixed64RoundTrip(file, p + 32, MAGIC);
  }

  // --------------------------------------------------------------- the index

  predicate HandleFits(h: Handle) {
    |h.last| < TWO32 && h.offset < TWO64 && h.size < TWO64
  }

  /** One index entry at `p` and the offset after it. */
  function ParseHandle(s: Bytes, p: nat): (r: Option<(Handle, nat)>)
    requires p <= |s|
    ensures r.Some? ==> p < r.value.1 <= |s|
  {
    match GetLengthPrefixed(s, p)
    case None => None
    case Some((last, q)) =>
      if |s| - q < 16 then None
      else Some((Handle(last, DecodeFixed64(s, q), DecodeFixed64(s, q + 8)), q + 16))
  }

  function ParseHandles(s: Bytes, p: nat): Option<seq<Handle>>
    requires p <= |s|
    decreases |s| - p
  {
    if p == |s| then Some([])
    else
      match ParseHandle(s, p)
      case None => None
      case Some((h, q)) =>
        match ParseHandles(s, q)
        case None => None
        case Some(rest) => Some([h] + rest)
  }

  lemma HandleRoundTrip(s: Bytes, p: nat, h: Handle)
    requires HandleFits(h) && Holds(s, p, EncodeHandle(h))
    ensures ParseHandle(s, p) == Some((h, p + |EncodeHandle(h)|))
  {
    hide LengthPrefixed, GetLengthPrefixed, Fixed64, DecodeFixed64;
    var a, b, c := LengthPrefixed(h.last), Fixed64(h.offset), Fixed64(h.size);
    HoldsConcat(s, p, a + b, c);
    HoldsConcat(s, p, a, b);
    LengthPrefixedRoundTrip(s, p, h.last);
    Fixed64RoundTrip(s, p + |a|, h.offset);
    Fixed64RoundTrip(s, p + |a| + 8, h.size);
  }

  lemma {:induction false} HandlesPrefix(hs: seq<Handle>, i: nat, j: nat)
    requires i <= j <= |hs|
    ensures EncodeHandles(hs[..i]) <= EncodeHandles(hs[..j])
    decreases j - i
  {
    hide EncodeHandle;
    if i < j {
      HandlesPrefix(hs, i, j - 1);
      assert hs[..j][..j - 1] == hs[..j - 1];
    }
  }

  lemma HandleAt(hs: seq<Handle>, i: nat)
    requires i < |hs|
    ensures Holds(EncodeHandles(hs), |EncodeHandles(hs[..i])|, EncodeHandle(hs[i]))
    ensures |EncodeHandles(hs[..i])| + |EncodeHandle(hs[i])| == |EncodeHandles(hs[..i + 1])|
  {
    hide EncodeHandle;
    HandlesPrefix(hs, i + 1, |hs|);
    assert hs[..|hs|] == hs && hs[..i + 1][..i] == hs[..i];
    var d, x := EncodeHandles(hs[..i + 1]), EncodeHandle(hs[i]);
    assert d == EncodeHandles(hs[..i]) + x;
    assert EncodeHandles(hs)[|d| - |x|..|d|] == d[|d| - |x|..] == x;
  }

  /** Parsing the index gives back every entry. */
  lemma {:induction false} HandlesRoundTrip(hs: seq<Handle>, i: nat)
    requires i <= |hs| && forall k :: 0 <= k < |hs| ==> HandleFits(hs[k])
    ensures |EncodeHandles(hs[..i])| <= |EncodeHandles(hs)|
    ensures ParseHandles(EncodeHandles(hs), |EncodeHandles(hs[..i])|) == Some(hs[i..])
    decreases |hs| - i
  {
    hide EncodeHandle, ParseHandle, EncodeHandles, HandleFits;
    HandlesPrefix(hs, i, |hs|);
    assert hs[..|hs|] == hs;
    if i < |hs| {
      HandleAt(hs, i);
      HandleRoundTrip(EncodeHandles(hs), |EncodeHandles(hs[..i])|, hs[i]);
      HandlesRoundTrip(hs, i + 1);
      assert hs[i..] == [hs[i]] + hs[i + 1..];
    } else {
      assert hs[..i] == hs && hs[i..] == [];
    }
  }

  // ------------------------------------------------------------ sizes that fit

  lemma HandlesFit(blocks: seq<seq<Entry>>, bloom: Bytes, interval: nat)
    requires interval >= 1 && TableFits(blocks, bloom, interval)
    ensures forall k :: 0 <= k < |blocks| ==> HandleFits(Handles(blocks, interval)[k])
    ensures |Data(blocks, |blocks|, interval)| + |bloom| + |EncodeHandles(Handles(blocks, interval))| + 8 < TWO64
  {
    hide EncodeHandles, Contents, Stored;
    forall k | 0 <= k < |blocks| ensures HandleFits(Handles(blocks, interval)[k]) {
      BlockInFile(blocks, bloom, interval, k);
      assert BlockFits(blocks[k], interval);
      assert Encodable(blocks[k][|blocks[k]| - 1]);
    }
  }
}
