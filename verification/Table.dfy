/** Building, opening and reading tables, after src/sstable.cpp. */
module Tables {
  import opened ByteStrings
  import opened Coding
  import opened InternalKeys
  import opened Views
  import opened MergingIterators
  import opened Scans
  import opened Compactions
  import opened Versions
  import opened Checksums
  import opened TableFormat
  import B = Blocks
  import F = Blooms
  import C = Caches

  // ------------------------------------------------------------------ building

  lemma {:induction false} DataPrefix(blocks: seq<seq<Entry>>, b: seq<Entry>, n: nat, interval: nat)
    requires n <= |blocks| && interval >= 1
    ensures Data(blocks + [b], n, interval) == Data(blocks, n, interval)
    decreases n
  {
    hide Stored, Contents;
    if n > 0 { DataPrefix(blocks, b, n - 1, interval); }
  }

  lemma HandlesAppend(blocks: seq<seq<Entry>>, b: seq<Entry>, interval: nat)
    requires NonEmpty(blocks) && b != [] && interval >= 1
    ensures NonEmpty(blocks + [b])
    ensures Handles(blocks + [b], interval)
      == Handles(blocks, interval)
        + [Handle(IKey(Last(b)), |Data(blocks, |blocks|, interval)|, |Contents(b, interval)|)]
  {
    hide Stored, Contents, Data;
    var all := blocks + [b];
    forall i | 0 <= i <= |blocks|
      ensures Data(all, i, interval) == Data(blocks, i, interval)
    {
      DataPrefix(blocks, b, i, interval);
    }
    forall i | 0 <= i < |blocks| ensures all[i] == blocks[i] { }
  }

  lemma HandlesEncode(hs: seq<Handle>, h: Handle)
    ensures EncodeHandles(hs + [h]) == EncodeHandles(hs) + EncodeHandle(h)
  {
    hide EncodeHandle;
    assert (hs + [h])[..|hs|] == hs;
  }

  ghost predicate KeysMatch(keys: seq<Bytes>, es: seq<Entry>) {
    |keys| == |es| && forall i :: 0 <= i < |es| ==> keys[i] == es[i].key
  }

  function UserKeys(es: seq<Entry>): seq<Bytes> {
    seq(|es|, i requires 0 <= i < |es| => es[i].key)
  }

  /** The filter is the one of the given density over just the entries' keys. */
  ghost predicate FilterOf(bloom: Bytes, es: seq<Entry>, bitsPerKey: nat) {
    && |bloom| == F.FilterBytes(|es|, bitsPerKey) + 1 && bloom[|bloom| - 1] == F.Probes(bitsPerKey)
    && F.Exact(bloom[..|bloom| - 1], UserKeys(es), F.Probes(bitsPerKey))
  }

  /** The filter says maybe to the key of every entry. */
  ghost predicate FilterCovers(bloom: Bytes, es: seq<Entry>) {
    forall e :: e in es ==> F.MayContain(bloom, e.key)
  }

  /** What has been written, and the index so far. */
  ghost predicate Layout(file: Bytes, index: Bytes, blocks: seq<seq<Entry>>, interval: nat) {
    interval >= 1 && NonEmpty(blocks) && file == Data(blocks, |blocks|, interval)
      && index == EncodeHandles(Handles(blocks, interval))
  }

  lemma LayoutAppend(file: Bytes, index: Bytes, blocks: seq<seq<Entry>>, b: seq<Entry>, interval: nat)
    requires Layout(file, index, blocks, interval) && b != []
    ensures var c := Contents(b, interval);
      Layout(file + c + Fixed32(Checksum(c)), index + EncodeHandle(Handle(IKey(Last(b)), |file|, |c|)), blocks + [b],
        interval)
  {
    hide Data, Handles, EncodeHandles, Contents, NonEmpty, EncodeHandle, Checksum, Fixed32, IKey;
    var c := Contents(b, interval);
    HandlesAppend(blocks, b, interval);
    HandlesEncode(Handles(blocks, interval), Handle(IKey(Last(b)), |file|, |c|));
    DataPrefix(blocks, b, |blocks|, interval);
    DataNext(blocks + [b], |blocks|, interval);
    assert file + Stored(c) == file + c + Fixed32(Checksum(c));
  }

  /** What has been noted about the entries added so far. */
  ghost predicate Noted(filterKeys: seq<Bytes>, count: nat, smallest: Bytes, largest: Bytes, es: seq<Entry>) {
    && KeysMatch(filterKeys, es) && count == |es|
    && (es != [] ==> smallest == IKey(es[0]) && largest == IKey(Last(es)))
  }

  lemma NotedNext(filterKeys: seq<Bytes>, count: nat, smallest: Bytes, largest: Bytes, es: seq<Entry>, e: Entry)
    requires Noted(filterKeys, count, smallest, largest, es)
    ensures Noted(filterKeys + [e.key], count + 1, if count == 0 then IKey(e) else smallest, IKey(e), es + [e])
  {
    hide IKey;
  }

  /** A block is closed as soon as it reaches the block size, and not before. */
  ghost predicate WellCut(b: seq<Entry>, blockSize: nat, interval: nat) {
    interval >= 1 && b != [] && |Contents(b, interval)| >= blockSize
      && (|b| > 1 ==> |Contents(b[..|b| - 1], interval)| < blockSize)
  }

  ghost predicate AllWellCut(blocks: seq<seq<Entry>>, n: nat, blockSize: nat, interval: nat) {
    n <= |blocks| && forall i :: 0 <= i < n ==> WellCut(blocks[i], blockSize, interval)
  }

  lemma CutOnTime(open: seq<Entry>, e: Entry, blockSize: nat, interval: nat)
    requires interval >= 1 && (open != [] ==> |Contents(open, interval)| < blockSize)
    ensures |Contents(open + [e], interval)| >= blockSize ==> WellCut(open + [e], blockSize, interval)
  {
    hide Contents;
    assert (open + [e])[..|open + [e]| - 1] == open;
  }

  class TableBuilder {
    const interval: nat
    const blockSize: nat
    const bitsPerKey: nat
    const block: B.BlockBuilder
    var file: Bytes
    var index: Bytes
    var filterKeys: seq<Bytes>
    var lastKey: Bytes
    var smallest: Bytes
    var largest: Bytes
    var numEntries: nat
    ghost var blocks: seq<seq<Entry>>
    ghost var open: seq<Entry>

    ghost function All(): seq<Entry>
      reads this
    {
      Concat(blocks) + open
    }

    ghost predicate Valid()
      reads this, block
    {
      && block.Valid() && block.interval == interval && block.es == Pairs(open)
      && Layout(file, index, blocks, interval) && Noted(filterKeys, numEntries, smallest, largest, All())
      && (All() != [] ==> lastKey == largest)
    }

    /** Blocks so far are cut where they should be, and the open one is not due yet. */
    ghost predicate OnTime()
      reads this
    {
      && AllWellCut(blocks, |blocks|, blockSize, interval)
      && (open != [] ==> interval >= 1 && |Contents(open, interval)| < blockSize)
    }

    constructor (restartInterval: int, blockSize: nat, bitsPerKey: nat)
      ensures Valid() && OnTime() && this.blockSize == blockSize && fresh(block) && All() == []
      ensures interval == (if restartInterval < 1 then 1 else restartInterval) && this.bitsPerKey == bitsPerKey
    {
      var builder := new B.BlockBuilder(restartInterval);
      this.interval, this.blockSize, this.bitsPerKey := builder.interval, blockSize, bitsPerKey;
      block := builder;
      file, index, filterKeys, lastKey, smallest, largest, numEntries := [], [], [], [], [], [], 0;
      blocks, open := [], [];
      new;
      assert Handles([], interval) == [] && Pairs([]) == [];
    }

    /** Writes the open block, if there is anything in it, and notes its last key. */
    method FlushDataBlock()
      requires Valid()
      modifies this`file, this`index, this`blocks, this`open, block
      ensures Valid() && All() == old(All()) && open == []
      ensures blocks == if old(open) == [] then old(blocks) else old(blocks) + [old(open)]
    {
      hide Layout, Noted, Concat, B.Finished, B.Body, B.Restarts, Pairs, EncodeHandle, Checksum, Fixed32, IKey;
      PairsLength(open);
      if block.entries == 0 { return; }
      LastOf(blocks, open);
      assert lastKey == IKey(Last(open)) by { NotedLast(filterKeys, numEntries, smallest, largest, All()); }
      var contents := block.Finish();
      LayoutAppend(file, index, blocks, open, interval);
      ConcatAppend(blocks, open);
      assert All() == Concat(blocks + [open]) + [];
      NoPairs();
      index := index + EncodeHandle(Handle(lastKey, |file|, |contents|));
      file := file + contents + Fixed32(Checksum(contents));
      blocks, open := blocks + [open], [];
    }

    /** Notes the entry and puts it into the open block. */
    method Append(e: Entry)
      requires Valid() && Encodable(e)
      modifies this`filterKeys, this`lastKey, this`smallest, this`largest, this`numEntries, this`open, block
      ensures Valid() && open == old(open) + [e] && All() == old(All()) + [e]
    {
      hide Layout, Noted, Concat, IKey, B.Finished, B.Body, B.Restarts, Pairs;
      ghost var was := All();
      NotedNext(filterKeys, numEntries, smallest, largest, was, e);
      NotedFirst(filterKeys, numEntries, smallest, largest, was);
      var ikey := IKey(e);
      if numEntries == 0 { smallest := ikey; }
      largest, lastKey := ikey, ikey;
      numEntries := numEntries + 1;
      filterKeys := filterKeys + [e.key];
      block.Add(ikey, e.value);
      PairsAppend(open, e);
      open := open + [e];
      assert All() == was + [e];
    }

    method Add(e: Entry)
      requires Valid() && OnTime() && Encodable(e) && (All() != [] ==> Before(Last(All()), e))
      modifies this, block
      ensures Valid() && OnTime() && All() == old(All()) + [e]
    {
      hide Layout, Noted, Concat, B.Finished, B.Body, B.Restarts, Before, Pairs, WellCut;
      CutOnTime(open, e, blockSize, interval);
      Append(e);
      var size := block.CurrentSizeEstimate();
      if size >= blockSize { FlushDataBlock(); }
    }

    /** The finished file: the entries in blocks, a filter that covers them, the index. */
    method Finish() returns (result: Bytes, bloom: Bytes)
      requires Valid() && OnTime()
      modifies this, block
      ensures NonEmpty(blocks) && Concat(blocks) == old(All()) && result == TableFile(blocks, bloom, interval)
      ensures AllWellCut(blocks, if blocks == [] then 0 else |blocks| - 1, blockSize, interval)
      ensures FilterCovers(bloom, Concat(blocks)) && FilterOf(bloom, Concat(blocks), bitsPerKey)
      ensures Noted(filterKeys, numEntries, smallest, largest, Concat(blocks))
    {
      hide Data, Handles, EncodeHandles, Concat, NonEmpty, Footer, F.MayContain, Checksum, Fixed32, WellCut,
        B.Finished, B.Body, B.Restarts, Pairs, IKey, F.Exact, F.FilterBytes, F.Probes;
      FlushDataBlock();
      assert All() == Concat(blocks);
      bloom := F.Build(filterKeys, bitsPerKey);
      var bloomOffset := |file|;
      result := file + bloom + Fixed32(Checksum(bloom));
      var indexOffset := |result|;
      result := result + index + Fixed32(Checksum(index));
      result := result + Footer(indexOffset, |index|, bloomOffset, |bloom|);
      assert result == Assemble(file, bloom, index);
      FilterIs(filterKeys, All(), bloom);
      NotedKeys(filterKeys, numEntries, smallest, largest, All());
    }
  }

  lemma LastOf(blocks: seq<seq<Entry>>, open: seq<Entry>)
    requires open != []
    ensures Concat(blocks) + open != [] && Last(Concat(blocks) + open) == Last(open)
  {
  }

  lemma NotedLast(filterKeys: seq<Bytes>, count: nat, smallest: Bytes, largest: Bytes, es: seq<Entry>)
    requires Noted(filterKeys, count, smallest, largest, es) && es != []
    ensures largest == IKey(Last(es))
  {
  }

  lemma NotedKeys(filterKeys: seq<Bytes>, count: nat, smallest: Bytes, largest: Bytes, es: seq<Entry>)
    requires Noted(filterKeys, count, smallest, largest, es)
    ensures filterKeys == UserKeys(es)
  {
  }

  lemma NotedFirst(filterKeys: seq<Bytes>, count: nat, smallest: Bytes, largest: Bytes, es: seq<Entry>)
    requires Noted(filterKeys, count, smallest, largest, es)
    ensures count == |es|
  {
  }

  lemma NoPairs()
    ensures Pairs([]) == []
  {
  }

  lemma PairsLength(es: seq<Entry>)
    ensures |Pairs(es)| == |es|
  {
  }

  lemma PairsAppend(es: seq<Entry>, e: Entry)
    ensures Pairs(es + [e]) == Pairs(es) + [B.Pair(IKey(e), e.value)]
  {
  }

  lemma FilterIs(keys: seq<Bytes>, es: seq<Entry>, bloom: Bytes)
    requires KeysMatch(keys, es) && forall key :: key in keys ==> F.MayContain(bloom, key)
    ensures FilterCovers(bloom, es)
  {
    hide F.MayContain;
    forall e | e in es ensures F.MayContain(bloom, e.key) {
      var i :| 0 <= i < |es| && es[i] == e;
      assert keys[i] in keys;
    }
  }

  // ------------------------------------------------------------------- opening

  /** A block read straight from the file, or nothing if it is short or damaged. */
  function DirectRead(file: Bytes, offset: nat, size: nat, verify: bool): Option<Bytes> {
    if offset + size + 4 > |file| then None
    else if verify && Checksum(file[offset..offset + size]) != DecodeFixed32(file, offset + size) then None
    else Some(file[offset..offset + size])
  }

  lemma DirectReadIs(file: Bytes, offset: nat, c: Bytes, verify: bool)
    requires StoredAt(file, offset, c)
    ensures DirectRead(file, offset, |c|, verify) == Some(c)
  {
    hide Checksum, DecodeFixed32, Stored;
    StoredFields(file, offset, c);
  }

  datatype OpenError = TooShort | BadMagic | FooterPastEnd | BadBlock | BadIndex

  datatype OpenResult = Opened(index: seq<Handle>, bloom: Bytes) | NotOpened(error: OpenError)

  function OpenSpec(file: Bytes, verify: bool): OpenResult {
    if |file| < FOOTER_SIZE then NotOpened(TooShort)
    else
      var p := |file| - FOOTER_SIZE;
      var indexOffset, indexSize := DecodeFixed64(file, p), DecodeFixed64(file, p + 8);
      var bloomOffset, bloomSize := DecodeFixed64(file, p + 16), DecodeFixed64(file, p + 24);
      if DecodeFixed64(file, p + 32) != MAGIC then NotOpened(BadMagic)
      else if indexOffset + indexSize + 4 > |file| || bloomOffset + bloomSize + 4 > |file| then NotOpened(FooterPastEnd)
      else
        var bloom, index := DirectRead(file, bloomOffset, bloomSize, verify),
          DirectRead(file, indexOffset, indexSize, verify);
        if bloom.None? || index.None? then NotOpened(BadBlock)
        else
          match ParseHandles(index.value, 0)
          case None => NotOpened(BadIndex)
          case Some(hs) => Opened(hs, bloom.value)
  }

  /** Parses the index block entry by entry. */
  method ReadIndex(s: Bytes) returns (r: Option<seq<Handle>>)
    ensures r == ParseHandles(s, 0)
  {
    hide ParseHandle;
    var p: nat, hs: seq<Handle> := 0, [];
    ghost var all := ParseHandles(s, 0);
    if all.Some? { assert [] + all.value == all.value; }
    while p < |s|
      invariant p <= |s|
      invariant match ParseHandles(s, p)
        case None => ParseHandles(s, 0).None?
        case Some(rest) => ParseHandles(s, 0) == Some(hs + rest)
      decreases |s| - p
    {
      var h := ParseHandle(s, p);
      if h.None? { return None; }
      ghost var rest := ParseHandles(s, h.value.1);
      if rest.Some? { assert hs + ([h.value.0] + rest.value) == (hs + [h.value.0]) + rest.value; }
      hs, p := hs + [h.value.0], h.value.1;
    }
    assert hs + [] == hs;
    r := Some(hs);
  }

  /** Footer, filter and index are found where the footer says. */
  lemma TailReads(data: Bytes, bloom: Bytes, index: Bytes, verify: bool)
    requires |data| + |bloom| + |index| + 8 < TWO64
    ensures var file := Assemble(data, bloom, index);
      var p := |file| - FOOTER_SIZE;
      && |file| >= FOOTER_SIZE && DecodeFixed64(file, p) == |data| + |bloom| + 4
      && DecodeFixed64(file, p + 8) == |index|
      && DecodeFixed64(file, p + 16) == |data| && DecodeFixed64(file, p + 24) == |bloom|
      && DecodeFixed64(file, p + 32) == MAGIC
      && DirectRead(file, |data|, |bloom|, verify) == Some(bloom)
      && DirectRead(file, |data| + |bloom| + 4, |index|, verify) == Some(index)
  {
    hide Stored, Footer, DirectRead, DecodeFixed64, Holds;
    TailInFile(data, bloom, index);
    var file := Assemble(data, bloom, index);
    assert |file| >= FOOTER_SIZE;
    hide Assemble;
    FooterFields(file, |file| - FOOTER_SIZE, |data| + |bloom| + 4, |index|, |data|, |bloom|);
    DirectReadIs(file, |data|, bloom, verify);
    DirectReadIs(file, |data| + |bloom| + 4, index, verify);
  }

  lemma ReadWithin(file: Bytes, offset: nat, size: nat, verify: bool)
    requires DirectRead(file, offset, size, verify).Some?
    ensures offset + size + 4 <= |file|
  {
  }

  /** A finished table opens to exactly the index and filter it was built with. */
  lemma OpenFinished(blocks: seq<seq<Entry>>, bloom: Bytes, interval: nat, verify: bool)
    requires interval >= 1 && TableFits(blocks, bloom, interval)
    ensures OpenSpec(TableFile(blocks, bloom, interval), verify) == Opened(Handles(blocks, interval), bloom)
  {
    hide Data, Handles, EncodeHandles, Assemble, DirectRead, ParseHandles, DecodeFixed64, BlockFits, HandleFits;
    var data, index := Data(blocks, |blocks|, interval), EncodeHandles(Handles(blocks, interval));
    var file := TableFile(blocks, bloom, interval);
    HandlesFit(blocks, bloom, interval);
    TailReads(data, bloom, index, verify);
    ReadWithin(file, |data|, |bloom|, verify);
    ReadWithin(file, |data| + |bloom| + 4, |index|, verify);
    IndexReads(blocks, interval);
  }

  lemma IndexReads(blocks: seq<seq<Entry>>, interval: nat)
    requires NonEmpty(blocks) && interval >= 1
    requires forall k :: 0 <= k < |blocks| ==> HandleFits(Handles(blocks, interval)[k])
    ensures ParseHandles(EncodeHandles(Handles(blocks, interval)), 0) == Some(Handles(blocks, interval))
  {
    hide Handles, HandleFits, ParseHandles;
    var hs := Handles(blocks, interval);
    HandlesRoundTrip(hs, 0);
    assert hs[..0] == [] && hs[0..] == hs;
  }

  // ------------------------------------------------------------------- reading

  /** What a lookup in one table reports. */
  datatype Lookup = Absent | Tombstone | Present(value: Bytes) | Failed

  /** A lookup at `sn` tells what the newest version of the key is, among the entries `E`. */
  ghost predicate TellsNewest(r: Lookup, E: set<Entry>, key: Bytes, sn: nat) {
    && !r.Failed?
    && (r.Absent? <==> NoHit(E, key, sn))
    && (r.Tombstone? ==> exists e :: IsNewest(e, E, key, sn) && e.kind.Deletion?)
    && (r.Present? ==> exists e :: IsNewest(e, E, key, sn) && e.kind.Value? && e.value == r.value)
    && (SeqUnique(E) ==> forall e :: IsNewest(e, E, key, sn) ==>
      (r.Tombstone? <==> e.kind.Deletion?) && (r.Present? <==> e.kind.Value?) && (r.Present? ==> r.value == e.value))
  }

  lemma LookupTells(es: seq<Entry>, key: Bytes, sn: nat, r: Lookup)
    requires Sorted(es)
    requires match RunGet(es, key, sn)
      case None => r == Absent
      case Some(e) => if e.kind.Deletion? then r == Tombstone else r == Present(e.value)
    ensures TellsNewest(r, SetOf(es), key, sn)
  {
    hide RunGet, Sorted, SetOf;
    RunGetIsNewest(es, key, sn);
    if RunGet(es, key, sn).Some? {
      var e := RunGet(es, key, sn).value;
      assert IsNewest(e, SetOf(es), key, sn);
    }
  }

  lemma PairsSorted(es: seq<Entry>)
    requires Sorted(es) && forall i :: 0 <= i < |es| ==> Encodable(es[i])
    ensures B.KeysSorted(Pairs(es))
  {
    hide Before, ILess, IKey;
    forall i, j | 0 <= i < j < |es| ensures ILess(IKey(es[i]), IKey(es[j])) { IKeyOrder(es[i], es[j]); }
  }

  /** Seeking by encoded keys is seeking by entries. */
  lemma SeekPoint(es: seq<Entry>, target: Entry, at: nat)
    requires Sorted(es) && (forall i :: 0 <= i < |es| ==> Encodable(es[i])) && target.sn <= MAX_SEQUENCE
    requires B.KeysSorted(Pairs(es)) && B.IsSeekPoint(Pairs(es), IKey(target), at)
    ensures at == SeekIndex(es, target)
  {
    hide Before, ILess, IKey, Sorted, SeekIndex;
    forall i | 0 <= i < |es|
      ensures ILess(Pairs(es)[i].key, IKey(target)) <==> Before(es[i], target)
    {
      IKeyOrder(es[i], target);
    }
    SeekUnique(es, target, at);
  }

  /** What the block chosen by the index says is what the whole table says. */
  lemma BlockDecides(blocks: seq<seq<Entry>>, key: Bytes, sn: nat, lo: nat)
    requires IsRun(blocks) && lo < |blocks|
    requires forall i :: 0 <= i < lo ==> Before(Last(blocks[i]), LookupKey(key, sn))
    requires !Before(Last(blocks[lo]), LookupKey(key, sn))
    ensures var at := SeekIndex(blocks[lo], LookupKey(key, sn));
      && at < |blocks[lo]|
      && RunGet(Concat(blocks), key, sn) == if blocks[lo][at].key == key then Some(blocks[lo][at]) else None
  {
    hide Before, SeekIndex, Concat;
    var t := LookupKey(key, sn);
    var all, b := Concat(blocks), blocks[lo];
    var p, at := SeekIndex(all, t), SeekIndex(b, t);
    SeekInLevel(blocks, t, lo);
    assert at < |b| by { SeekInside(b, t); }
    assert all[p..] == b[at..] + Concat(blocks[lo + 1..]);
    assert p < |all| && all[p] == all[p..][0] == b[at];
  }

  lemma SeekInside(es: seq<Entry>, t: Entry)
    requires es != [] && !Before(Last(es), t)
    ensures SeekIndex(es, t) < |es|
  {
    hide Before;
  }

  lemma PastEnd(blocks: seq<seq<Entry>>, key: Bytes, sn: nat)
    requires IsRun(blocks) && forall i :: 0 <= i < |blocks| ==> Before(Last(blocks[i]), LookupKey(key, sn))
    ensures RunGet(Concat(blocks), key, sn) == None
  {
    hide Before, SeekIndex;
    SeekInLevel(blocks, LookupKey(key, sn), |blocks|);
  }

  lemma NotFiltered(es: seq<Entry>, bloom: Bytes, key: Bytes, sn: nat)
    requires FilterCovers(bloom, es) && !F.MayContain(bloom, key)
    ensures RunGet(es, key, sn) == None
  {
    hide F.MayContain, SeekIndex;
    var p := SeekIndex(es, LookupKey(key, sn));
    assert p < |es| ==> es[p] in es;
  }

  /** What a caller knows about an open table: the entries it was built from. */
  ghost predicate Holding(file: Bytes, index: seq<Handle>, bloom: Bytes, blocks: seq<seq<Entry>>, interval: nat) {
    && interval >= 1 && TableFits(blocks, bloom, interval) && IsRun(blocks)
    && file == TableFile(blocks, bloom, interval) && index == Handles(blocks, interval)
    && FilterCovers(bloom, Concat(blocks))
  }

  /** Any file produced by the builder opens, and holds what was added. */
  lemma OpenedHolds(blocks: seq<seq<Entry>>, bloom: Bytes, interval: nat, verify: bool)
    requires interval >= 1 && TableFits(blocks, bloom, interval) && IsRun(blocks) && FilterCovers(bloom, Concat(blocks))
    ensures var file := TableFile(blocks, bloom, interval);
      var r := OpenSpec(file, verify);
      r.Opened? && Holding(file, r.index, r.bloom, blocks, interval)
  {
    hide OpenSpec, TableFile, Handles, FilterCovers, IsRun, Concat;
    OpenFinished(blocks, bloom, interval, verify);
  }

  lemma HoldingFacts(file: Bytes, index: seq<Handle>, bloom: Bytes, blocks: seq<seq<Entry>>, interval: nat, i: nat)
    requires Holding(file, index, bloom, blocks, interval) && i < |blocks|
    ensures interval >= 1 && |index| == |blocks| && blocks[i] != []
    ensures index[i].last == IKey(Last(blocks[i])) && index[i].size == |Contents(blocks[i], interval)|
    ensures StoredAt(file, index[i].offset, Contents(blocks[i], interval)) && BlockFits(blocks[i], interval)
    ensures Encodable(Last(blocks[i]))
  {
    hide Stored, Contents, FilterCovers, Concat, IKey, Encodable, B.AllFit;
    BlockInFile(blocks, bloom, interval, i);
    assert BlockFits(blocks[i], interval);
  }

  lemma BlockSorted(blocks: seq<seq<Entry>>, i: nat)
    requires IsRun(blocks) && i < |blocks|
    ensures Sorted(blocks[i])
  {
    hide Before, Concat;
    forall j, k | 0 <= j < k < |blocks[i]| ensures Before(blocks[i][j], blocks[i][k]) {
      ConcatIndex(blocks, i, j);
      ConcatIndex(blocks, i, k);
    }
  }

  class Table {
    const file: Bytes
    const index: seq<Handle>
    const bloom: Bytes
    const verify: bool
    const cache: C.BlockCache?
    const number: nat
    ghost const disk: C.Key -> Bytes

    constructor (file: Bytes, index: seq<Handle>, bloom: Bytes, verify: bool, cache: C.BlockCache?, number: nat,
            ghost disk: C.Key -> Bytes)
      ensures this.file == file && this.index == index && this.bloom == bloom && this.verify == verify
      ensures this.cache == cache && this.number == number && this.disk == disk
    {
      this.file, this.index, this.bloom, this.verify := file, index, bloom, verify;
      this.cache, this.number, this.disk := cache, number, disk;
    }

    /** Opens a table file: footer, filter, index. */
    static method Open(file: Bytes, verify: bool, cache: C.BlockCache?, number: nat, ghost disk: C.Key -> Bytes)
      returns (table: Table?, ghost result: OpenResult)
      ensures result == OpenSpec(file, verify) && (table != null <==> result.Opened?)
      ensures table != null ==> fresh(table) && table.file == file && table.index == result.index
      ensures table != null ==> table.bloom == result.bloom
      ensures table != null ==> table.verify == verify && table.cache == cache && table.number == number
      ensures table != null ==> table.disk == disk
    {
      hide ParseHandles, DirectRead, DecodeFixed64;
      result := OpenSpec(file, verify);
      if |file| < FOOTER_SIZE { return null, result; }
      var p := |file| - FOOTER_SIZE;
      var indexOffset, indexSize := DecodeFixed64(file, p), DecodeFixed64(file, p + 8);
      var bloomOffset, bloomSize := DecodeFixed64(file, p + 16), DecodeFixed64(file, p + 24);
      if DecodeFixed64(file, p + 32) != MAGIC { return null, result; }
      if indexOffset + indexSize + 4 > |file| || bloomOffset + bloomSize + 4 > |file| { return null, result; }
      var bloom, index := DirectRead(file, bloomOffset, bloomSize, verify),
        DirectRead(file, indexOffset, indexSize, verify);
      if bloom.None? || index.None? { return null, result; }
      var hs := ReadIndex(index.value);
      if hs.None? { return null, result; }
      table := new Table(file, hs.value, bloom.value, verify, cache, number, disk);
    }

    ghost predicate Valid(blocks: seq<seq<Entry>>, interval: nat)
      reads this, cache, if cache == null then [] else cache.shards
    {
      && Holding(file, index, bloom, blocks, interval)
      && (cache != null ==> cache.Valid() && cache.Agrees(disk) && DiskAgrees(blocks, interval))
    }

    /** Cached blocks of this file are keyed by its number and their offset. */
    ghost predicate DiskAgrees(blocks: seq<seq<Entry>>, interval: nat) {
      interval >= 1 && |index| == |blocks| && forall i :: 0 <= i < |blocks| ==>
        disk(C.Key(number, index[i].offset)) == Contents(blocks[i], interval)
    }

    /** Reads a data block, through the cache if there is one. Either way the caller gets
        what is in the file. */
    method ReadBlock(i: nat, ghost blocks: seq<seq<Entry>>, ghost interval: nat) returns (r: Option<Bytes>)
      requires Valid(blocks, interval) && i < |blocks|
      modifies if cache == null then [] else cache.shards
      ensures Valid(blocks, interval) && r == Some(Contents(blocks[i], interval))
      ensures cache != null ==> i < |index| && cache.Cached(C.Key(number, index[i].offset)) == r
    {
      hide Holding, Contents, DirectRead, StoredAt, BlockFits;
      HoldingFacts(file, index, bloom, blocks, interval, i);
      DirectReadIs(file, index[i].offset, Contents(blocks[i], interval), verify);
      if cache != null {
        var hit := cache.Lookup(C.Key(number, index[i].offset), disk);
        if hit.Some? { return Some(hit.value); }
      }
      r := DirectRead(file, index[i].offset, index[i].size, verify);
      if r.Some? && cache != null {
        var value := cache.Insert(C.Key(number, index[i].offset), r.value, disk);
        r := Some(value);
      }
    }

    /** Binary search of the index: the first block whose last key is not before the target. */
    method FindBlock(target: Bytes, ghost t: Entry, ghost blocks: seq<seq<Entry>>, ghost interval: nat)
      returns (lo: nat)
      requires Holding(file, index, bloom, blocks, interval) && target == IKey(t) && t.sn <= MAX_SEQUENCE
      ensures lo <= |blocks| == |index|
      ensures forall i :: 0 <= i < lo ==> blocks[i] != [] && Before(Last(blocks[i]), t)
      ensures lo < |blocks| ==> blocks[lo] != [] && !Before(Last(blocks[lo]), t)
    {
      hide ILess, Before, IKey, Holding, Contents, BlockFits, StoredAt;
      forall i | 0 <= i < |blocks|
        ensures |index| == |blocks| && blocks[i] != [] && index[i].last == IKey(Last(blocks[i]))
        ensures (ILess(index[i].last, target) <==> Before(Last(blocks[i]), t))
      {
        HoldingFacts(file, index, bloom, blocks, interval, i);
        IKeyOrder(Last(blocks[i]), t);
      }
      assert |index| == |blocks| by { HoldingLength(file, index, bloom, blocks, interval); }
      assert forall i, j :: 0 <= i < j < |blocks| ==>
        Before(Last(blocks[i]), Last(blocks[j])) by { HoldingAscends(file, index, bloom, blocks, interval); }
      BeforeIsOrder();
      lo := 0;
      var hi := |index|;
      while lo < hi
        invariant lo <= hi <= |index|
        invariant forall i :: 0 <= i < lo ==> Before(Last(blocks[i]), t)
        invariant forall i :: hi <= i < |blocks| ==> !Before(Last(blocks[i]), t)
        decreases hi - lo
      {
        var mid := lo + (hi - lo) / 2;
        if ILess(index[mid].last, target) { lo := mid + 1; } else { hi := mid; }
      }
    }

    /** Table::Get: filter, sparse index, one block. */
    method Get(key: Bytes, sn: nat, ghost blocks: seq<seq<Entry>>, ghost interval: nat) returns (r: Lookup)
      requires Valid(blocks, interval) && sn <= MAX_SEQUENCE
      modifies if cache == null then [] else cache.shards
      ensures Valid(blocks, interval) && TellsNewest(r, SetOf(Concat(blocks)), key, sn)
    {
      hide Holding, RunGet, F.MayContain, Before, IKey, Contents, Concat, TellsNewest, IsRun, SetOf;
      HoldingSorted(file, index, bloom, blocks, interval);
      var maybe := F.CheckKey(bloom, key);
      if !maybe {
        HoldingFilter(file, index, bloom, blocks, interval);
        NotFiltered(Concat(blocks), bloom, key, sn);
        LookupTells(Concat(blocks), key, sn, Absent);
        return Absent;
      }
      ghost var t := LookupKey(key, sn);
      var target := IKey(LookupKey(key, sn));
      var lo := FindBlock(target, t, blocks, interval);
      HoldingRun(file, index, bloom, blocks, interval);
      if lo >= |index| {
        PastEnd(blocks, key, sn);
        LookupTells(Concat(blocks), key, sn, Absent);
        return Absent;
      }
      var contents := ReadBlock(lo, blocks, interval);
      if contents.None? { return Failed; }
      BlockDecides(blocks, key, sn, lo);
      r := SearchBlock(contents.value, key, target, t, lo, blocks, interval);
      LookupTells(Concat(blocks), key, sn, r);
    }

    /** Looks a key up in one block. */
    method SearchBlock(contents: Bytes, key: Bytes, target: Bytes, ghost t: Entry, ghost lo: nat,
            ghost blocks: seq<seq<Entry>>, ghost interval: nat)
      returns (r: Lookup)
      requires Holding(file, index, bloom, blocks, interval) && lo < |blocks|
      requires contents == Contents(blocks[lo], interval)
      requires t.key == key && t.sn <= MAX_SEQUENCE && target == IKey(t) && SeekIndex(blocks[lo], t) < |blocks[lo]|
      ensures var e := blocks[lo][SeekIndex(blocks[lo], t)];
        if e.key != key then r == Absent else if e.kind.Deletion? then r == Tombstone else r == Present(e.value)
    {
      hide Holding, Before, IKey, Sorted, SeekIndex, B.Finished, B.AllFit, B.WellFormed, B.KeysSorted, B.IsSeekPoint,
        StoredAt;
      ghost var b := blocks[lo];
      HoldingFacts(file, index, bloom, blocks, interval, lo);
      HoldingRun(file, index, bloom, blocks, interval);
      BlockSorted(blocks, lo);
      PairsSorted(b);
      B.FinishedWellFormed(Pairs(b), interval);
      var reader := new B.BlockReader(contents);
      ghost var at := reader.Seek(target, Pairs(b), interval);
      SeekPoint(b, t, at);
      if !reader.valid { return Absent; }
      var ikey := reader.key;
      IKeyRoundTrip(b[at]);
      if ExtractUserKey(ikey) != key { return Absent; }
      if ExtractTag(ikey) % 256 == 0 { return Tombstone; }
      r := Present(reader.value);
    }
  }

  lemma HoldingLength(file: Bytes, index: seq<Handle>, bloom: Bytes, blocks: seq<seq<Entry>>, interval: nat)
    requires Holding(file, index, bloom, blocks, interval)
    ensures |index| == |blocks|
  {
  }

  lemma HoldingAscends(file: Bytes, index: seq<Handle>, bloom: Bytes, blocks: seq<seq<Entry>>, interval: nat)
    requires Holding(file, index, bloom, blocks, interval)
    ensures forall i, j :: 0 <= i < j < |blocks| ==>
      blocks[i] != [] && blocks[j] != [] && Before(Last(blocks[i]), Last(blocks[j]))
  {
    hide Before, Concat;
    LastsAscend(blocks);
  }

  lemma HoldingRun(file: Bytes, index: seq<Handle>, bloom: Bytes, blocks: seq<seq<Entry>>, interval: nat)
    requires Holding(file, index, bloom, blocks, interval)
    ensures IsRun(blocks)
  {
    hide IsRun;
  }

  lemma HoldingSorted(file: Bytes, index: seq<Handle>, bloom: Bytes, blocks: seq<seq<Entry>>, interval: nat)
    requires Holding(file, index, bloom, blocks, interval)
    ensures Sorted(Concat(blocks))
  {
    hide Concat, Sorted;
  }

  lemma HoldingFilter(file: Bytes, index: seq<Handle>, bloom: Bytes, blocks: seq<seq<Entry>>, interval: nat)
    requires Holding(file, index, bloom, blocks, interval)
    ensures FilterCovers(bloom, Concat(blocks))
  {
    hide FilterCovers, IsRun, Concat;
  }

  // ------------------------------------------------------------------ iterating

  /** A cursor over all entries of a table, block by block. */
  class TableIterator {
    const table: Table
    var blockIndex: nat
    var reader: B.BlockReader
    var valid: bool
    ghost var offset: nat      // which entry of the block the reader stands on

    /** The cursor stands on entry `p` of the table, or past the last one. */
    ghost predicate IsAt(blocks: seq<seq<Entry>>, interval: nat, p: nat)
      reads this, reader
    {
      && interval >= 1 && p <= |Concat(blocks)| && (valid <==> p < |Concat(blocks)|)
      && (valid ==>
          && blockIndex < |blocks| && offset < |blocks[blockIndex]| && p == Base(blocks, blockIndex) + offset
          && reader.Over(Pairs(blocks[blockIndex]), interval)
          && reader.IsAt(Pairs(blocks[blockIndex]), interval, offset))
    }

    constructor (table: Table)
      ensures this.table == table && fresh(reader) && !valid
    {
      var empty := new B.BlockReader([]);
      this.table, blockIndex, reader, valid, offset := table, 0, empty, false, 0;
    }

    /** The reader has block `blockIndex` before it. */
    ghost predicate InBlock(blocks: seq<seq<Entry>>, interval: nat)
      reads this, reader
    {
      blockIndex < |blocks| && reader.Over(Pairs(blocks[blockIndex]), interval)
        && B.KeysSorted(Pairs(blocks[blockIndex]))
    }

    ghost predicate AtStart(blocks: seq<seq<Entry>>, interval: nat)
      reads this, reader
    {
      blockIndex <= |blocks| && IsAt(blocks, interval, Base(blocks, blockIndex))
    }

    /** Opens block `blockIndex`; builders never write an empty one. */
    method OpenBlock(ghost blocks: seq<seq<Entry>>, ghost interval: nat) returns (ok: bool)
      requires blockIndex < |blocks| && table.Valid(blocks, interval)
      modifies this`reader, if table.cache == null then [] else table.cache.shards
      ensures table.Valid(blocks, interval) && fresh(reader) && ok && InBlock(blocks, interval)
    {
      hide Holding, Contents, B.Finished, B.AllFit, B.WellFormed, B.KeysSorted, StoredAt, Sorted, IsRun,
        C.BlockCache.Cached;
      HoldingFacts(table.file, table.index, table.bloom, blocks, interval, blockIndex);
      HoldingRun(table.file, table.index, table.bloom, blocks, interval);
      BlockSorted(blocks, blockIndex);
      PairsSorted(blocks[blockIndex]);
      B.FinishedWellFormed(Pairs(blocks[blockIndex]), interval);
      var contents := table.ReadBlock(blockIndex, blocks, interval);
      if contents.None? { return false; }
      ContentsIs(blocks[blockIndex], interval);
      reader := new B.BlockReader(contents.value);
      ok := reader.ok;
    }

    /** Positions at the first entry of the open block. */
    method FirstInBlock(ghost blocks: seq<seq<Entry>>, ghost interval: nat)
      requires InBlock(blocks, interval) && blocks[blockIndex] != []
      modifies reader, this`offset, this`valid
      ensures InBlock(blocks, interval) && valid && offset == 0
      ensures reader.IsAt(Pairs(blocks[blockIndex]), interval, 0)
    {
      hide Pairs, B.KeysSorted, B.Finished, B.Offset, B.AllFit, B.WellFormed, B.CountField, B.EntriesSize;
      PairsLength(blocks[blockIndex]);
      reader.SeekToFirst(Pairs(blocks[blockIndex]), interval);
      offset, valid := 0, true;
    }

    /** Positions at the first entry of block `blockIndex`. */
    method LoadFirst(ghost blocks: seq<seq<Entry>>, ghost interval: nat)
      requires blockIndex <= |blocks| && table.Valid(blocks, interval)
      modifies this`reader, this`valid, this`offset, reader, if table.cache == null then [] else table.cache.shards
      ensures table.Valid(blocks, interval) && (reader == old(reader) || fresh(reader)) && AtStart(blocks, interval)
    {
      hide Holding, Concat, Pairs, B.KeysSorted, B.Finished, B.Offset, B.AllFit, B.WellFormed, B.CountField,
        B.EntriesSize;
      BlockStart(table.file, table.index, table.bloom, blocks, interval, blockIndex);
      valid, offset := false, 0;
      if blockIndex >= |table.index| { return; }
      var ok := OpenBlock(blocks, interval);
      FirstInBlock(blocks, interval);
    }

    method SeekToFirst(ghost blocks: seq<seq<Entry>>, ghost interval: nat)
      requires table.Valid(blocks, interval)
      modifies this, reader, if table.cache == null then [] else table.cache.shards
      ensures table.Valid(blocks, interval) && (reader == old(reader) || fresh(reader))
      ensures IsAt(blocks, interval, 0)
    {
      hide Holding, Concat, Pairs, B.Finished, B.Offset, B.AllFit;
      blockIndex := 0;
      assert Base(blocks, 0) == 0 by { BaseZero(blocks); }
      LoadFirst(blocks, interval);
    }

    /** Positions within the open block, which is known to reach the target. */
    method SeekInBlock(target: Bytes, ghost t: Entry, ghost blocks: seq<seq<Entry>>, ghost interval: nat)
      requires InBlock(blocks, interval) && target == IKey(t) && t.sn <= MAX_SEQUENCE
      requires Sorted(blocks[blockIndex])
      requires (forall i :: 0 <= i < |blocks[blockIndex]| ==> Encodable(blocks[blockIndex][i]))
      modifies reader, this`offset, this`valid
      ensures InBlock(blocks, interval) && offset == SeekIndex(blocks[blockIndex], t) && valid == reader.valid
      ensures reader.IsAt(Pairs(blocks[blockIndex]), interval, offset)
    {
      hide B.Finished, B.Offset, B.AllFit, B.WellFormed, Before, SeekIndex, IKey, Sorted, B.KeysSorted, B.IsSeekPoint,
        Pairs;
      ghost var at := reader.Seek(target, Pairs(blocks[blockIndex]), interval);
      SeekPoint(blocks[blockIndex], t, at);
      offset, valid := at, reader.valid;
    }

    /** Positions at the first entry at or after the target. */
    method Seek(target: Bytes, ghost t: Entry, ghost blocks: seq<seq<Entry>>, ghost interval: nat)
      requires target == IKey(t) && t.sn <= MAX_SEQUENCE && table.Valid(blocks, interval)
      modifies this, reader, if table.cache == null then [] else table.cache.shards
      ensures table.Valid(blocks, interval) && (reader == old(reader) || fresh(reader))
      ensures IsAt(blocks, interval, SeekIndex(Concat(blocks), t))
    {
      hide Holding, Concat, Pairs, B.Finished, B.Offset, B.AllFit, B.WellFormed, Before, SeekIndex, IKey, IsRun,
        Sorted, B.KeysSorted, StoredAt, Contents, Encodable;
      blockIndex := table.FindBlock(target, t, blocks, interval);
      HoldingRun(table.file, table.index, table.bloom, blocks, interval);
      SeekWhere(blocks, t, blockIndex);
      BlockStart(table.file, table.index, table.bloom, blocks, interval, blockIndex);
      valid, offset := false, 0;
      if blockIndex >= |table.index| { return; }
      OpenAndSeek(target, t, blocks, interval);
    }

    /** Opens block `blockIndex` and positions in it. */
    method OpenAndSeek(target: Bytes, ghost t: Entry, ghost blocks: seq<seq<Entry>>, ghost interval: nat)
      requires target == IKey(t) && t.sn <= MAX_SEQUENCE && blockIndex < |blocks| && table.Valid(blocks, interval)
      modifies this`reader, this`offset, this`valid, if table.cache == null then [] else table.cache.shards
      ensures table.Valid(blocks, interval) && fresh(reader) && InBlock(blocks, interval)
      ensures offset == SeekIndex(blocks[blockIndex], t) && (valid <==> offset < |blocks[blockIndex]|)
      ensures reader.IsAt(Pairs(blocks[blockIndex]), interval, offset)
    {
      hide Holding, Concat, Pairs, B.Finished, B.Offset, B.AllFit, B.WellFormed, Before, SeekIndex, IKey, IsRun,
        Sorted, B.KeysSorted, StoredAt, Contents, Encodable;
      HoldingFacts(table.file, table.index, table.bloom, blocks, interval, blockIndex);
      HoldingRun(table.file, table.index, table.bloom, blocks, interval);
      BlockSorted(blocks, blockIndex);
      var ok := OpenBlock(blocks, interval);
      PairsLength(blocks[blockIndex]);
      SeekInBlock(target, t, blocks, interval);
    }

    /** Steps within the block. */
    method StepReader(ghost blocks: seq<seq<Entry>>, ghost interval: nat, ghost p: nat)
      requires IsAt(blocks, interval, p) && valid
      modifies reader, this`offset
      ensures offset == old(offset) + 1 && interval >= 1
      ensures reader.Over(Pairs(blocks[blockIndex]), interval)
      ensures reader.IsAt(Pairs(blocks[blockIndex]), interval, offset)
    {
      hide Concat, Pairs, B.Finished, B.Offset, B.AllFit, B.WellFormed;
      PairsLength(blocks[blockIndex]);
      reader.Next(Pairs(blocks[blockIndex]), interval, offset);
      offset := offset + 1;
    }

    method Next(ghost blocks: seq<seq<Entry>>, ghost interval: nat, ghost p: nat)
      requires IsAt(blocks, interval, p) && valid && table.Valid(blocks, interval)
      modifies this, reader, if table.cache == null then [] else table.cache.shards
      ensures table.Valid(blocks, interval) && (reader == old(reader) || fresh(reader))
      ensures IsAt(blocks, interval, p + 1)
    {
      hide Holding, Concat, Pairs, B.Finished, B.Offset, B.AllFit, B.WellFormed, B.CountField, B.EntriesSize;
      PairsLength(blocks[blockIndex]);
      BlockEnd(table.file, table.index, table.bloom, blocks, interval, blockIndex);
      StepReader(blocks, interval, p);
      if reader.valid {
        BlockStart(table.file, table.index, table.bloom, blocks, interval, blockIndex);
        return;
      }
      blockIndex := blockIndex + 1;
      LoadFirst(blocks, interval);
    }
  }

  lemma ContentsIs(es: seq<Entry>, interval: nat)
    requires interval >= 1
    ensures Contents(es, interval) == B.Finished(Pairs(es), interval)
  {
  }

  lemma BaseZero(blocks: seq<seq<Entry>>)
    ensures Base(blocks, 0) == 0
  {
  }

  /** Where a block starts among all entries. */
  lemma BlockStart(file: Bytes, index: seq<Handle>, bloom: Bytes, blocks: seq<seq<Entry>>, interval: nat, i: nat)
    requires Holding(file, index, bloom, blocks, interval) && i <= |blocks|
    ensures interval >= 1 && |index| == |blocks| && Base(blocks, i) <= |Concat(blocks)|
    ensures i < |blocks| ==> blocks[i] != [] && Base(blocks, i) < |Concat(blocks)|
    ensures i == |blocks| ==> Base(blocks, i) == |Concat(blocks)|
  {
    hide Concat, FilterCovers;
    ConcatSplit(blocks, i);
    if i < |blocks| { ConcatIndex(blocks, i, 0); } else { assert blocks[..i] == blocks; }
  }

  lemma BlockEnd(file: Bytes, index: seq<Handle>, bloom: Bytes, blocks: seq<seq<Entry>>, interval: nat, i: nat)
    requires Holding(file, index, bloom, blocks, interval) && i < |blocks|
    ensures Base(blocks, i + 1) == Base(blocks, i) + |blocks[i]| <= |Concat(blocks)|
  {
    hide Concat, FilterCovers;
    PrefixEnd(blocks, i + 1);
    ConcatSplit(blocks, i + 1);
  }

  /** Seeking within the block the index names is seeking among all entries. */
  lemma SeekWhere(blocks: seq<seq<Entry>>, t: Entry, lo: nat)
    requires IsRun(blocks) && lo <= |blocks|
    requires forall i :: 0 <= i < lo ==> blocks[i] != [] && Before(Last(blocks[i]), t)
    requires lo < |blocks| ==> blocks[lo] != [] && !Before(Last(blocks[lo]), t)
    ensures lo < |blocks| ==> SeekIndex(blocks[lo], t) < |blocks[lo]|
    ensures lo < |blocks| ==>
      SeekIndex(Concat(blocks), t) == Base(blocks, lo) + SeekIndex(blocks[lo], t) < |Concat(blocks)|
    ensures lo == |blocks| ==> SeekIndex(Concat(blocks), t) == |Concat(blocks)|
  {
    hide Before, SeekIndex, Concat;
    var all := Concat(blocks);
    SeekInLevel(blocks, t, lo);
    ConcatSplit(blocks, lo);
    if lo < |blocks| {
      SeekInside(blocks[lo], t);
      PrefixEnd(blocks, lo + 1);
      ConcatSplit(blocks, lo + 1);
      assert |all[SeekIndex(all, t)..]| == |blocks[lo]| - SeekIndex(blocks[lo], t) + |Concat(blocks[lo + 1..])|;
    }
  }
}
