/** The file tree, after Version and FileMetaData in include/lsm/db.h and the reading and
    input-selection code of src/db.cpp. */
module Versions {
  import opened ByteStrings
  import opened InternalKeys
  import opened Views
  import opened MergingIterators
  import opened Scans

  const NUM_LEVELS: nat := 7

  /** A table: its number, its size in bytes and its entries in internal-key order. The
      smallest and largest keys recorded in FileMetaData are those of the first and last. */
  datatype File = File(number: nat, size: nat, entries: seq<Entry>)

  type Version = seq<seq<File>>

  ghost predicate FileOk(f: File) {
    f.entries != [] && Sorted(f.entries) && f.size > 0
  }

  function SmallestKey(f: File): Bytes
    requires f.entries != []
  {
    f.entries[0].key
  }

  function LargestKey(f: File): Bytes
    requires f.entries != []
  {
    Last(f.entries).key
  }

  /** A level below L0: ranges of user keys pairwise disjoint and ascending. */
  ghost predicate LevelSorted(files: seq<File>) {
    && (forall i :: 0 <= i < |files| ==> FileOk(files[i]))
    && (forall i, j :: 0 <= i < j < |files| ==> Less(LargestKey(files[i]), SmallestKey(files[j])))
  }

  /** L0: newest file first, that is, by descending number. */
  ghost predicate LevelZero(files: seq<File>) {
    && (forall i :: 0 <= i < |files| ==> FileOk(files[i]))
    && (forall i, j :: 0 <= i < j < |files| ==> files[i].number > files[j].number)
  }

  ghost predicate ById(v: Version) {
    forall l, m, f, g :: 0 <= l < |v| && 0 <= m < |v| && f in v[l] && g in v[m] && f.number == g.number ==>
      f == g && l == m
  }

  ghost predicate VersionOk(v: Version) {
    && |v| == NUM_LEVELS
    && LevelZero(v[0])
    && (forall l :: 0 < l < NUM_LEVELS ==> LevelSorted(v[l]))
    && ById(v)
  }

  // ------------------------------------------------------------------- sets

  ghost function FileSet(f: File): set<Entry> {
    SetOf(f.entries)
  }

  ghost function LevelSet(files: seq<File>): set<Entry> {
    set f, x | f in files && x in f.entries :: x
  }

  ghost function VersionSet(v: Version): set<Entry> {
    set l: nat, f, x | l < |v| && f in v[l] && x in f.entries :: x
  }

  lemma KeyInRange(f: File, x: Entry)
    requires FileOk(f) && x in f.entries
    ensures Leq(SmallestKey(f), x.key) && Leq(x.key, LargestKey(f))
  {
    hide Less;
    LessIsOrder();
    var i :| 0 <= i < |f.entries| && f.entries[i] == x;
    assert i > 0 ==> Before(f.entries[0], x);
    assert i < |f.entries| - 1 ==> Before(x, Last(f.entries));
  }

  /** A key lives in at most one file of a level below L0. */
  lemma OneFilePerKey(files: seq<File>, f: File, g: File, x: Entry, y: Entry)
    requires LevelSorted(files) && f in files && g in files && x in f.entries && y in g.entries && x.key == y.key
    ensures f == g
  {
    hide Less;
    LessIsOrder();
    var i :| 0 <= i < |files| && files[i] == f;
    var j :| 0 <= j < |files| && files[j] == g;
    KeyInRange(f, x);
    KeyInRange(g, y);
  }

  function EntriesOf(files: seq<File>): (r: seq<seq<Entry>>)
    ensures |r| == |files|
  {
    seq(|files|, i requires 0 <= i < |files| => files[i].entries)
  }

  /** Such a level, file after file, is a single sorted run. */
  lemma {:induction false} LevelIsRun(files: seq<File>)
    requires LevelSorted(files)
    ensures IsRun(EntriesOf(files))
    decreases |files|
  {
    hide Less;
    LessIsOrder();
    if files != [] {
      var all, head, rest := EntriesOf(files), files[0].entries, EntriesOf(files[1..]);
      assert all[1..] == rest;
      LevelIsRun(files[1..]);
      forall i, j | 0 <= i < |head| && 0 <= j < |Concat(rest)| ensures Before(head[i], Concat(rest)[j]) {
        ConcatContains(rest, Concat(rest)[j]);
        var k :| 0 <= k < |rest| && Concat(rest)[j] in rest[k];
        KeyInRange(files[0], head[i]);
        KeyInRange(files[k + 1], Concat(rest)[j]);
      }
      RunPrepend(head, Concat(rest));
    }
  }

  lemma RunPrepend(a: seq<Entry>, b: seq<Entry>)
    requires Sorted(a) && Sorted(b) && forall i, j :: 0 <= i < |a| && 0 <= j < |b| ==> Before(a[i], b[j])
    ensures Sorted(a + b)
  {
    hide Before;
  }

  // ------------------------------------------------------------ point reads

  /** What MemTable::Get and Table::Get find in one sorted run. */
  function RunGet(es: seq<Entry>, key: Bytes, sn: nat): Option<Entry> {
    var p := SeekIndex(es, LookupKey(key, sn));
    if p < |es| && es[p].key == key then Some(es[p]) else None
  }

  lemma SeekIndexIsSeek(es: seq<Entry>, target: Entry)
    requires Sorted(es)
    ensures IsSeek(es, target, SeekIndex(es, target))
  {
    hide Before;
    SeekStops(es, target);
  }

  lemma RunGetIsNewest(es: seq<Entry>, key: Bytes, sn: nat)
    requires Sorted(es)
    ensures match RunGet(es, key, sn)
      case Some(e) => IsNewest(e, SetOf(es), key, sn)
      case None => NoHit(SetOf(es), key, sn)
  {
    hide Before;
    var p := SeekIndex(es, LookupKey(key, sn));
    SeekIndexIsSeek(es, LookupKey(key, sn));
    SeekFindsNewest(es, key, sn, p);
  }

  ghost function Sources(mem: set<Entry>, imm: set<Entry>, v: Version): seq<set<Entry>>
    requires |v| == NUM_LEVELS
  {
    [mem, imm]
    + seq(|v[0]|, i requires 0 <= i < |v[0]| => FileSet(v[0][i]))
    + seq(NUM_LEVELS - 1, i requires 0 <= i < NUM_LEVELS - 1 => LevelSet(v[i + 1]))
  }

  /** The binary search for the one file of a level that can hold a key. */
  method LowerBound(files: seq<File>, key: Bytes) returns (lo: nat)
    requires LevelSorted(files)
    ensures lo <= |files|
    ensures forall i :: 0 <= i < lo ==> Less(LargestKey(files[i]), key)
    ensures forall i :: lo <= i < |files| ==> !Less(LargestKey(files[i]), key)
  {
    hide Less;
    LessIsOrder();
    lo := 0;
    var hi := |files|;
    while lo < hi
      invariant lo <= hi <= |files|
      invariant forall i :: 0 <= i < lo ==> Less(LargestKey(files[i]), key)
      invariant forall i :: hi <= i < |files| ==> !Less(LargestKey(files[i]), key)
      decreases hi - lo
    {
      var mid := lo + (hi - lo) / 2;
      LargestAscend(files);
      if Less(LargestKey(files[mid]), key) { lo := mid + 1; } else { hi := mid; }
    }
  }

  lemma LargestAscend(files: seq<File>)
    requires LevelSorted(files)
    ensures forall i, j :: 0 <= i < j < |files| ==> Less(LargestKey(files[i]), LargestKey(files[j]))
  {
    hide Less;
    LessIsOrder();
    forall i, j | 0 <= i < j < |files| ensures Less(LargestKey(files[i]), LargestKey(files[j])) {
      KeyInRange(files[j], Last(files[j].entries));
    }
  }

  /** Only the file the binary search lands on can hold the key. */
  lemma OnlyCandidate(files: seq<File>, key: Bytes, lo: nat, i: nat, x: Entry)
    requires LevelSorted(files) && lo <= |files| && i < |files| && i != lo && x in files[i].entries
    requires forall i :: 0 <= i < lo ==> Less(LargestKey(files[i]), key)
    requires forall i :: lo <= i < |files| ==> !Less(LargestKey(files[i]), key)
    ensures x.key != key
  {
    hide Less;
    LessIsOrder();
    KeyInRange(files[i], x);
    if lo < i { assert Less(LargestKey(files[lo]), SmallestKey(files[i])); }
  }

  /** A file is consulted only if its range covers the key. */
  method Probe(f: File, key: Bytes, sn: nat) returns (r: Option<Entry>)
    requires FileOk(f)
    ensures r.Some? ==> IsNewest(r.value, FileSet(f), key, sn)
    ensures r.None? ==> NoHit(FileSet(f), key, sn)
  {
    hide Less, RunGet;
    if Less(key, SmallestKey(f)) || Less(LargestKey(f), key) {
      forall x | x in FileSet(f) ensures !Hit(x, key, sn) { KeyInRange(f, x); }
      r := None;
    } else {
      RunGetIsNewest(f.entries, key, sn);
      r := RunGet(f.entries, key, sn);
    }
  }

  /** One level below L0: binary search, then one probe. */
  method ProbeLevel(files: seq<File>, key: Bytes, sn: nat) returns (r: Option<Entry>)
    requires LevelSorted(files)
    ensures r.Some? ==> IsNewest(r.value, LevelSet(files), key, sn)
    ensures r.None? ==> NoHit(LevelSet(files), key, sn)
  {
    hide Less;
    var lo := LowerBound(files, key);
    r := None;
    if lo < |files| { r := Probe(files[lo], key, sn); }
    forall i, x | 0 <= i < |files| && i != lo && x in files[i].entries ensures x.key != key {
      OnlyCandidate(files, key, lo, i, x);
    }
  }

  lemma SourceAt(mem: set<Entry>, imm: set<Entry>, v: Version)
    requires |v| == NUM_LEVELS
    ensures |Sources(mem, imm, v)| == 2 + |v[0]| + NUM_LEVELS - 1
    ensures Sources(mem, imm, v)[0] == mem && Sources(mem, imm, v)[1] == imm
    ensures forall i :: 0 <= i < |v[0]| ==> Sources(mem, imm, v)[2 + i] == FileSet(v[0][i])
    ensures forall l :: 0 < l < NUM_LEVELS ==> Sources(mem, imm, v)[1 + |v[0]| + l] == LevelSet(v[l])
  {
  }

  /** DB::Get: newest source first, and the first source that knows the key decides. */
  method Get(mem: seq<Entry>, imm: seq<Entry>, v: Version, key: Bytes, sn: nat) returns (r: Option<Entry>)
    requires Sorted(mem) && Sorted(imm) && VersionOk(v)
    ensures IsFirstHit(Sources(SetOf(mem), SetOf(imm), v), key, sn, r)
  {
    hide IsNewest, NoHit, RunGet, LevelSorted, FileOk, Sources, Sorted, ById, FileSet, LevelSet;
    ghost var src := Sources(SetOf(mem), SetOf(imm), v);
    SourceAt(SetOf(mem), SetOf(imm), v);
    RunGetIsNewest(mem, key, sn);
    r := RunGet(mem, key, sn);
    if r.Some? {
      assert HitAt(src, key, sn, r.value, 0);
      return;
    }
    RunGetIsNewest(imm, key, sn);
    r := RunGet(imm, key, sn);
    if r.Some? {
      assert HitAt(src, key, sn, r.value, 1);
      return;
    }
    for i := 0 to |v[0]|
      invariant forall j :: 0 <= j < 2 + i ==> NoHit(src[j], key, sn)
    {
      r := Probe(v[0][i], key, sn);
      if r.Some? {
        assert HitAt(src, key, sn, r.value, 2 + i);
        return;
      }
    }
    for l := 1 to NUM_LEVELS
      invariant forall j :: 0 <= j < 1 + |v[0]| + l ==> NoHit(src[j], key, sn)
    {
      r := ProbeLevel(v[l], key, sn);
      if r.Some? {
        assert HitAt(src, key, sn, r.value, 1 + |v[0]| + l);
        return;
      }
    }
    r := None;
  }

  // --------------------------------------------------------- order of sources

  /** Key by key, nothing in `A` is older than anything in `B`. */
  ghost predicate Newer(A: set<Entry>, B: set<Entry>) {
    forall x, y :: x in A && y in B && x.key == y.key ==> x.sn >= y.sn
  }

  ghost predicate OrderOk(mem: set<Entry>, imm: set<Entry>, v: Version) {
    && Newer(mem, imm)
    && Newer(mem + imm, VersionSet(v))
    && LevelsOrdered(v)
  }

  ghost predicate LevelsOrdered(v: Version) {
    && (forall l, m :: 0 <= l < m < |v| ==> Newer(LevelSet(v[l]), LevelSet(v[m])))
    && (|v| > 0 ==> forall i, j :: 0 <= i < j < |v[0]| ==> Newer(FileSet(v[0][i]), FileSet(v[0][j])))
  }

  lemma LevelInVersion(v: Version, l: nat)
    requires l < |v|
    ensures LevelSet(v[l]) <= VersionSet(v)
    ensures forall f :: f in v[l] ==> FileSet(f) <= LevelSet(v[l])
  {
  }

  /** The in-memory tables above the levels, in order, are an ordered list of sources. */
  lemma SourcesOrdered(mem: set<Entry>, imm: set<Entry>, v: Version)
    requires |v| == NUM_LEVELS && OrderOk(mem, imm, v)
    ensures Ordered(Sources(mem, imm, v))
  {
    hide LevelSet, FileSet, VersionSet, Sources;
    var src, n := Sources(mem, imm, v), |v[0]|;
    SourceAt(mem, imm, v);
    forall i, j | 0 <= i < j < |src| ensures Newer(src[i], src[j]) {
      if j >= 2 { SourceInVersion(mem, imm, v, j); }
      if i >= 2 {
        if i < 2 + n && j < 2 + n {
          assert src[i] == FileSet(v[0][i - 2]) && src[j] == FileSet(v[0][j - 2]);
        } else {
          var m := j - 1 - n;
          assert src[j] == LevelSet(v[m]);
          if i < 2 + n {
            LevelInVersion(v, 0);
            assert src[i] == FileSet(v[0][i - 2]) <= LevelSet(v[0]);
          } else {
            assert src[i] == LevelSet(v[i - 1 - n]);
          }
        }
      }
    }
  }

  lemma SourceInVersion(mem: set<Entry>, imm: set<Entry>, v: Version, j: nat)
    requires |v| == NUM_LEVELS && 2 <= j < |Sources(mem, imm, v)|
    ensures Sources(mem, imm, v)[j] <= VersionSet(v)
  {
    hide LevelSet, FileSet, VersionSet, Sources;
    SourceAt(mem, imm, v);
    if j < 2 + |v[0]| {
      LevelInVersion(v, 0);
      assert v[0][j - 2] in v[0];
      assert Sources(mem, imm, v)[2 + (j - 2)] == FileSet(v[0][j - 2]);
    } else {
      var m := j - 1 - |v[0]|;
      LevelInVersion(v, m);
      assert Sources(mem, imm, v)[1 + |v[0]| + m] == LevelSet(v[m]);
    }
  }

  lemma UnionIs(mem: set<Entry>, imm: set<Entry>, v: Version)
    requires |v| == NUM_LEVELS
    ensures Union(Sources(mem, imm, v)) == mem + imm + VersionSet(v)
  {
    hide Sources;
    var src := Sources(mem, imm, v);
    SourceAt(mem, imm, v);
    forall x ensures x in Union(src) <==> x in mem + imm + VersionSet(v) {
      if x in Union(src) {
        var j: nat :| j < |src| && x in src[j];
        if j >= 2 { SourceInVersion(mem, imm, v, j); }
      }
      if x in VersionSet(v) {
        var l: nat, f :| l < |v| && f in v[l] && x in f.entries;
        if l == 0 {
          var i :| 0 <= i < |v[0]| && v[0][i] == f;
          assert x in src[2 + i];
        } else {
          assert x in LevelSet(v[l]) && LevelSet(v[l]) == src[1 + |v[0]| + l];
        }
      }
      if x in mem { assert x in src[0]; }
      if x in imm { assert x in src[1]; }
    }
  }

  /** DB::Get reads exactly the newest visible version across the whole store. */
  lemma GetIsView(mem: set<Entry>, imm: set<Entry>, v: Version, key: Bytes, sn: nat, r: Option<Entry>)
    requires |v| == NUM_LEVELS && OrderOk(mem, imm, v) && SeqUnique(mem + imm + VersionSet(v))
    requires IsFirstHit(Sources(mem, imm, v), key, sn, r)
    ensures Answer(r) == View(mem + imm + VersionSet(v), key, sn)
  {
    hide Sources, View, OrderOk, VersionSet;
    SourcesOrdered(mem, imm, v);
    UnionIs(mem, imm, v);
    FirstHitIsView(Sources(mem, imm, v), key, sn, r);
  }

  // --------------------------------------------------------- level surgery

  /** The source's RangesOverlap. */
  predicate RangesOverlap(f: File, lo: Bytes, hi: Bytes)
    requires f.entries != []
  {
    !Less(LargestKey(f), lo) && !Less(hi, SmallestKey(f))
  }

  ghost predicate AllOk(files: seq<File>) {
    forall i :: 0 <= i < |files| ==> FileOk(files[i])
  }

  /** The tightest range covering every file of a non-empty list. */
  ghost predicate IsHull(files: seq<File>, lo: Bytes, hi: Bytes)
    requires AllOk(files)
  {
    && (forall f :: f in files ==> Leq(lo, SmallestKey(f)) && Leq(LargestKey(f), hi))
    && (exists f :: f in files && SmallestKey(f) == lo)
    && (exists f :: f in files && LargestKey(f) == hi)
  }

  method Hull(files: seq<File>) returns (lo: Bytes, hi: Bytes)
    requires AllOk(files) && files != []
    ensures IsHull(files, lo, hi)
  {
    hide Less, Sorted;
    LessIsOrder();
    lo, hi := SmallestKey(files[0]), LargestKey(files[0]);
    for i := 0 to |files|
      invariant forall j :: 0 <= j < i ==> Leq(lo, SmallestKey(files[j])) && Leq(LargestKey(files[j]), hi)
      invariant exists f :: f in files && SmallestKey(f) == lo
      invariant exists f :: f in files && LargestKey(f) == hi
    {
      if Less(SmallestKey(files[i]), lo) { lo := SmallestKey(files[i]); }
      if Less(hi, LargestKey(files[i])) { hi := LargestKey(files[i]); }
    }
  }

  function Overlapping(files: seq<File>, lo: Bytes, hi: Bytes): seq<File>
    requires forall i :: 0 <= i < |files| ==> files[i].entries != []
  {
    if files == [] then []
    else (if RangesOverlap(files[0], lo, hi) then [files[0]] else []) + Overlapping(files[1..], lo, hi)
  }

  lemma {:induction false} OverlappingAre(files: seq<File>, lo: Bytes, hi: Bytes, f: File)
    requires forall i :: 0 <= i < |files| ==> files[i].entries != []
    ensures f in Overlapping(files, lo, hi) <==> f in files && f.entries != [] && RangesOverlap(f, lo, hi)
    decreases |files|
  {
    hide RangesOverlap;
    if files != [] { OverlappingAre(files[1..], lo, hi, f); }
  }

  lemma OverlappingFrom(files: seq<File>, lo: Bytes, hi: Bytes, i: nat)
    requires i < |files| && forall k :: 0 <= k < |files| ==> files[k].entries != []
    ensures Overlapping(files[i..], lo, hi)
         == (if RangesOverlap(files[i], lo, hi) then [files[i]] else []) + Overlapping(files[i + 1..], lo, hi)
  {
    hide RangesOverlap;
    assert files[i..][1..] == files[i + 1..];
  }

  lemma OverlappingEnds(files: seq<File>, lo: Bytes, hi: Bytes)
    requires AllOk(files)
    ensures (forall i :: 0 <= i < |files| ==> files[i].entries != []) && files[0..] == files
    ensures Overlapping(files[|files|..], lo, hi) == []
  {
    hide RangesOverlap;
  }

  method SelectOverlapping(files: seq<File>, lo: Bytes, hi: Bytes) returns (r: seq<File>)
    requires AllOk(files)
    ensures r == Overlapping(files, lo, hi)
  {
    hide RangesOverlap, Overlapping, FileOk;
    r := [];
    OverlappingEnds(files, lo, hi);
    for i := 0 to |files|
      invariant r + Overlapping(files[i..], lo, hi) == Overlapping(files, lo, hi)
    {
      OverlappingFrom(files, lo, hi, i);
      if RangesOverlap(files[i], lo, hi) { r := r + [files[i]]; }
    }
  }

  /** Erase the files whose numbers were compacted away. */
  function Without(files: seq<File>, removed: set<nat>): seq<File> {
    if files == [] then []
    else (if files[0].number in removed then [] else [files[0]]) + Without(files[1..], removed)
  }

  lemma {:induction false} WithoutAre(files: seq<File>, removed: set<nat>, f: File)
    ensures f in Without(files, removed) <==> f in files && f.number !in removed
    decreases |files|
  {
    if files != [] { WithoutAre(files[1..], removed, f); }
  }

  lemma {:induction false} WithoutSorted(files: seq<File>, removed: set<nat>)
    requires LevelSorted(files)
    ensures LevelSorted(Without(files, removed))
    decreases |files|
  {
    hide Less, Sorted;
    if files != [] {
      WithoutSorted(files[1..], removed);
      forall f | f in Without(files[1..], removed) ensures Less(LargestKey(files[0]), SmallestKey(f)) {
        WithoutAre(files[1..], removed, f);
      }
    }
  }

  /** Insertion by smallest internal key, one step of the sort at the end of a compaction. */
  function Insert(f: File, files: seq<File>): (r: seq<File>)
    requires f.entries != [] && forall i :: 0 <= i < |files| ==> files[i].entries != []
    ensures forall g :: g in r <==> g == f || g in files
  {
    if files == [] || Before(f.entries[0], files[0].entries[0]) then [f] + files
    else [files[0]] + Insert(f, files[1..])
  }

  function SortFiles(files: seq<File>): (r: seq<File>)
    requires forall i :: 0 <= i < |files| ==> files[i].entries != []
    ensures forall g :: g in r <==> g in files
  {
    if files == [] then []
    else
      var rest := SortFiles(files[1..]);
      assert forall i :: 0 <= i < |rest| ==> rest[i] in files[1..];
      Insert(files[0], rest)
  }

  /** Ranges that do not meet. */
  ghost predicate Apart(f: File, g: File) {
    f.entries != [] && g.entries != [] && (Less(LargestKey(f), SmallestKey(g)) || Less(LargestKey(g), SmallestKey(f)))
  }

  ghost predicate PairwiseApart(files: seq<File>) {
    AllOk(files) && forall i, j :: 0 <= i < j < |files| ==> Apart(files[i], files[j])
  }

  lemma SmallestVsLargest(f: File)
    requires FileOk(f)
    ensures Leq(SmallestKey(f), LargestKey(f))
  {
    KeyInRange(f, f.entries[0]);
  }

  lemma InsertFront(f: File, files: seq<File>)
    requires FileOk(f) && LevelSorted(files) && files != [] && Apart(f, files[0])
    requires Before(f.entries[0], files[0].entries[0])
    ensures forall i :: 0 <= i < |files| ==> Less(LargestKey(f), SmallestKey(files[i]))
  {
    hide Less, Sorted;
    LessIsOrder();
    SmallestVsLargest(f);
    SmallestVsLargest(files[0]);
    assert Less(LargestKey(f), SmallestKey(files[0]));
  }

  lemma InsertAfter(f: File, g: File)
    requires FileOk(f) && FileOk(g) && Apart(f, g) && !Before(f.entries[0], g.entries[0])
    ensures Less(LargestKey(g), SmallestKey(f))
  {
    hide Less, Sorted;
    LessIsOrder();
    SmallestVsLargest(f);
    SmallestVsLargest(g);
  }

  lemma {:induction false} InsertSorted(f: File, files: seq<File>)
    requires FileOk(f) && LevelSorted(files) && forall i :: 0 <= i < |files| ==> Apart(f, files[i])
    ensures LevelSorted(Insert(f, files))
    decreases |files|
  {
    hide Less, Sorted, Before, Apart;
    if files == [] {
    } else if Before(f.entries[0], files[0].entries[0]) {
      InsertFront(f, files);
    } else {
      InsertAfter(f, files[0]);
      InsertSorted(f, files[1..]);
      var rest := Insert(f, files[1..]);
      forall i | 0 <= i < |rest| ensures Less(LargestKey(files[0]), SmallestKey(rest[i])) {
        assert rest[i] in rest;
      }
    }
  }

  /** Sorting files whose ranges do not meet by smallest key gives a proper level. */
  lemma {:induction false} SortFilesSorted(files: seq<File>)
    requires PairwiseApart(files)
    ensures LevelSorted(SortFiles(files))
    decreases |files|
  {
    hide Less, Sorted, Before, Apart;
    if files != [] {
      SortFilesSorted(files[1..]);
      var rest := SortFiles(files[1..]);
      forall i | 0 <= i < |rest| ensures Apart(files[0], rest[i]) {
        assert rest[i] in files[1..];
      }
      InsertSorted(files[0], rest);
    }
  }
}
