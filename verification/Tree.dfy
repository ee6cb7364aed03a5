/** Changing the tree, after FlushImmutableMemTable and DoCompaction in src/db.cpp: which
    files a compaction takes, what it puts back, and why every property of the tree that
    reads rely on survives. */
module Trees {
  import opened ByteStrings
  import opened InternalKeys
  import opened Views
  import opened MergeSpec
  import opened Scans
  import opened Compactions
  import opened Versions

  ghost function Files(v: Version): set<File> {
    set l: nat, f | l < |v| && f in v[l] :: f
  }

  /** An entry held by two different files is visible to every reader. */
  ghost predicate SharedLow(v: Version, floor: nat) {
    forall f, g, x :: f in Files(v) && g in Files(v) && f != g && x in f.entries && x in g.entries ==> x.sn <= floor
  }

  // ----------------------------------------------------------- what goes in

  datatype Compaction = Compaction(level: nat, in0: seq<File>, in1: seq<File>, floor: nat, bottom: bool)

  /** Of the level below, exactly the files that meet the range of the first inputs. */
  ghost predicate PicksBelow(v: Version, c: Compaction, lo: Bytes, hi: Bytes)
    requires c.level + 1 < |v| && AllOk(c.in0) && AllOk(v[c.level + 1])
  {
    IsHull(c.in0, lo, hi) && c.in1 == Overlapping(v[c.level + 1], lo, hi)
  }

  /** The inputs DoCompaction settles on for one level of `v`. */
  ghost predicate IsCompaction(v: Version, c: Compaction) {
    && |v| == NUM_LEVELS && c.level < NUM_LEVELS - 1
    && c.in0 != [] && AllOk(c.in0) && AllOk(v[c.level + 1])
    && (c.level == 0 ==> c.in0 == v[0])
    && (c.level > 0 ==> |c.in0| == 1 && c.in0[0] in v[c.level])
    && (exists lo, hi :: PicksBelow(v, c, lo, hi))
    && (c.bottom <==> forall l :: c.level + 2 <= l < NUM_LEVELS ==> v[l] == [])
  }

  ghost function Inputs(c: Compaction): seq<File> {
    c.in0 + c.in1
  }

  ghost function Runs(c: Compaction): seq<seq<Entry>> {
    EntriesOf(Inputs(c))
  }

  ghost function Stream(c: Compaction): seq<Entry> {
    Entries(Merge(Runs(c)))
  }

  ghost function Output(c: Compaction): seq<Entry> {
    AllSurvivors(Stream(c), c.floor, c.bottom)
  }

  ghost function Removed(c: Compaction): set<nat> {
    set f | f in Inputs(c) :: f.number
  }

  predicate NoneEmpty(files: seq<File>) {
    forall i :: 0 <= i < |files| ==> files[i].entries != []
  }

  function Install(v: Version, level: nat, removed: set<nat>, outputs: seq<File>): Version
    requires |v| == NUM_LEVELS && level < NUM_LEVELS - 1
    requires NoneEmpty(v[level + 1]) && NoneEmpty(outputs)
  {
    WithoutNonEmpty(v[level + 1], removed);
    v[level := Without(v[level], removed)][level + 1 := SortFiles(Without(v[level + 1], removed) + outputs)]
  }

  lemma WithoutNonEmpty(files: seq<File>, removed: set<nat>)
    requires NoneEmpty(files)
    ensures NoneEmpty(Without(files, removed))
  {
    forall i | 0 <= i < |Without(files, removed)| ensures Without(files, removed)[i].entries != [] {
      WithoutAre(files, removed, Without(files, removed)[i]);
    }
  }

  /** The files a compaction writes: its output cut at user keys, under fresh numbers. */
  ghost predicate IsOutput(v: Version, c: Compaction, outputs: seq<File>) {
    && IsCut(EntriesOf(outputs), Output(c))
    && (forall i :: 0 <= i < |outputs| ==> outputs[i].size > 0)
    && (forall i, j :: 0 <= i < j < |outputs| ==> outputs[i].number != outputs[j].number)
    && (forall i, f :: 0 <= i < |outputs| && f in Files(v) ==> outputs[i].number != f.number)
  }

  // ------------------------------------------------------ facts about inputs

  lemma In1Are(v: Version, c: Compaction, f: File)
    requires IsCompaction(v, c)
    ensures f in c.in1 ==> f in v[c.level + 1]
    ensures f in c.in0 ==> f in v[c.level]
    ensures f in Inputs(c) <==> f in c.in0 || f in c.in1
  {
    hide IsHull, RangesOverlap, Overlapping, FileOk;
    var lo, hi :| PicksBelow(v, c, lo, hi);
    BelowNonEmpty(v[c.level + 1]);
    OverlappingAre(v[c.level + 1], lo, hi, f);
  }

  lemma BelowNonEmpty(files: seq<File>)
    requires AllOk(files)
    ensures forall i :: 0 <= i < |files| ==> files[i].entries != []
  {
  }

  lemma InputsOk(v: Version, c: Compaction)
    requires VersionOk(v) && IsCompaction(v, c)
    ensures AllOk(Inputs(c)) && RunsSorted(Runs(c))
    ensures forall f :: f in Inputs(c) ==> f in Files(v)
  {
    hide Less, Before, IsCompaction;
    forall f | f in Inputs(c) ensures FileOk(f) && f in Files(v) {
      InputInVersion(v, c, f);
    }
  }

  lemma InputInVersion(v: Version, c: Compaction, f: File)
    requires VersionOk(v) && IsCompaction(v, c) && f in Inputs(c)
    ensures FileOk(f) && f in Files(v)
  {
    hide Less, Before;
    In1Are(v, c, f);
    if f in c.in0 {
      FileOfLevel(v, c.level, f);
    } else {
      FileOfLevel(v, c.level + 1, f);
    }
  }

  lemma FileOfLevel(v: Version, l: nat, f: File)
    requires VersionOk(v) && l < NUM_LEVELS && f in v[l]
    ensures FileOk(f) && f in Files(v)
  {
    var i :| 0 <= i < |v[l]| && v[l][i] == f;
    if l > 0 { assert LevelSorted(v[l]); }
  }

  /** Of the two levels, exactly the inputs carry removed numbers. */
  lemma RemovedAre(v: Version, c: Compaction, l: nat, f: File)
    requires VersionOk(v) && IsCompaction(v, c) && l < NUM_LEVELS && f in v[l]
    ensures f.number in Removed(c) <==> f in Inputs(c)
    ensures f in Inputs(c) ==> l == c.level || l == c.level + 1
    ensures f in c.in0 ==> l == c.level
  {
    hide LevelSorted, LevelZero, IsCompaction;
    if f.number in Removed(c) {
      var g :| g in Inputs(c) && g.number == f.number;
      SameFile(v, c, l, f, g);
    }
    if f in Inputs(c) { SameFile(v, c, l, f, f); }
  }

  lemma SameFile(v: Version, c: Compaction, l: nat, f: File, g: File)
    requires VersionOk(v) && IsCompaction(v, c) && l < NUM_LEVELS && f in v[l] && g in Inputs(c) && g.number == f.number
    ensures f == g && (l == c.level || l == c.level + 1) && (f in c.in0 ==> l == c.level)
  {
    hide LevelSorted, LevelZero, FileOk, PicksBelow;
    In1Are(v, c, g);
  }

  lemma {:induction false} OverlappingSorted(files: seq<File>, lo: Bytes, hi: Bytes)
    requires LevelSorted(files)
    ensures LevelSorted(Overlapping(files, lo, hi))
    decreases |files|
  {
    hide Less, Sorted, RangesOverlap;
    if files != [] {
      OverlappingSorted(files[1..], lo, hi);
      forall f | f in Overlapping(files[1..], lo, hi) ensures Less(LargestKey(files[0]), SmallestKey(f)) {
        OverlappingAre(files[1..], lo, hi, f);
      }
    }
  }

  lemma In1Sorted(v: Version, c: Compaction)
    requires VersionOk(v) && IsCompaction(v, c)
    ensures LevelSorted(c.in1)
  {
    hide IsHull, RangesOverlap, Overlapping, LevelSorted, ById, LevelZero;
    var lo, hi :| PicksBelow(v, c, lo, hi);
    OverlappingSorted(v[c.level + 1], lo, hi);
  }

  lemma SortedDistinct(files: seq<File>, i: nat, j: nat)
    requires LevelSorted(files) && i < j < |files|
    ensures files[i] != files[j]
  {
    hide Less, Sorted;
    LessIsOrder();
    SmallestVsLargest(files[i]);
  }

  lemma LevelsDistinct(v: Version, f: File, g: File, l: nat, m: nat)
    requires ById(v) && l < |v| && m < |v| && l != m && f in v[l] && g in v[m]
    ensures f != g && f.number != g.number
  {
  }

  /** Different children of the merge are different files. */
  lemma InputsDistinct(v: Version, c: Compaction, i: nat, j: nat)
    requires VersionOk(v) && IsCompaction(v, c) && i < j < |Inputs(c)|
    ensures Inputs(c)[i] != Inputs(c)[j]
  {
    hide LevelSorted, FileOk, IsHull, Overlapping, ById, PicksBelow;
    var f, g, n := Inputs(c)[i], Inputs(c)[j], |c.in0|;
    if j < n {
      assert f == v[0][i] && g == v[0][j];
    } else if i < n {
      In1Are(v, c, f);
      In1Are(v, c, g);
      LevelsDistinct(v, f, g, c.level, c.level + 1);
    } else {
      In1Sorted(v, c);
      SortedDistinct(c.in1, i - n, j - n);
    }
  }

  /** The merged input repeats only entries everyone can see. */
  lemma StreamRepeatsLow(v: Version, c: Compaction)
    requires VersionOk(v) && IsCompaction(v, c) && SharedLow(v, c.floor) && SeqUnique(VersionSet(v))
    ensures RepeatsLow(Stream(c), c.floor)
  {
    hide VersionOk, IsCompaction, Merge, Before, SharedLow;
    InputsOk(v, c);
    MergeSorted(Runs(c));
    var items, es := Merge(Runs(c)), Stream(c);
    forall i | 0 < i < |es| && SameKey(es[i - 1], es[i]) ensures es[i].sn <= c.floor {
      var a, b := items[i - 1], items[i];
      MergeContents(Runs(c), a);
      MergeContents(Runs(c), b);
      assert Ahead(a, b);
      SameKeyBefore();
      InputsDistinct(v, c, a.child, b.child);
      SharedEntry(v, c.floor, Inputs(c)[a.child], Inputs(c)[b.child], a.entry, b.entry);
    }
  }

  lemma SharedEntry(v: Version, floor: nat, f: File, g: File, x: Entry, y: Entry)
    requires SharedLow(v, floor) && SeqUnique(VersionSet(v)) && f in Files(v) && g in Files(v) && f != g
    requires x in f.entries && y in g.entries && SameKey(x, y)
    ensures y.sn <= floor
  {
    TagDetermines(x, y);
    InVersionSet(v, f, x);
    InVersionSet(v, g, y);
  }

  lemma InVersionSet(v: Version, f: File, x: Entry)
    requires f in Files(v) && x in f.entries
    ensures x in VersionSet(v)
  {
  }

  lemma StreamIs(v: Version, c: Compaction)
    requires VersionOk(v) && IsCompaction(v, c)
    ensures Ascending(Stream(c)) && SetOf(Stream(c)) == LevelSet(Inputs(c)) && LevelSet(Inputs(c)) <= VersionSet(v)
  {
    hide VersionOk, IsCompaction, Merge, Before;
    InputsOk(v, c);
    MergedStream(Runs(c));
    forall x ensures x in UnionOf(Runs(c)) <==> x in LevelSet(Inputs(c)) {
      if x in LevelSet(Inputs(c)) {
        var f :| f in Inputs(c) && x in f.entries;
        var i :| 0 <= i < |Inputs(c)| && Inputs(c)[i] == f;
        assert x in Runs(c)[i];
      }
    }
    forall x | x in LevelSet(Inputs(c)) ensures x in VersionSet(v) {
      var f :| f in Inputs(c) && x in f.entries;
      InVersionSet(v, f, x);
    }
  }

  lemma OutputIs(v: Version, c: Compaction)
    requires VersionOk(v) && IsCompaction(v, c) && SharedLow(v, c.floor) && SeqUnique(VersionSet(v))
    ensures Sorted(Output(c)) && SetOf(Output(c)) <= LevelSet(Inputs(c))
  {
    hide VersionOk, IsCompaction, Merge, Before, SharedLow, Stream;
    StreamRepeatsLow(v, c);
    StreamIs(v, c);
    SurvivorsSorted(Stream(c), |Stream(c)|, c.floor, c.bottom);
    forall x | x in Output(c) ensures x in LevelSet(Inputs(c)) {
      SurvivorsSubset(Stream(c), c.floor, c.bottom, x);
      assert x in SetOf(Stream(c));
    }
  }

  // -------------------------------------------------------- the new levels

  lemma CutFileOk(files: seq<File>, es: seq<Entry>, i: nat)
    requires IsCut(EntriesOf(files), es) && Sorted(es) && i < |files| && files[i].size > 0
    ensures FileOk(files[i])
  {
    hide Before, Concat;
    var runs := EntriesOf(files);
    assert runs[i] == files[i].entries;
    forall p, q | 0 <= p < q < |files[i].entries| ensures Before(files[i].entries[p], files[i].entries[q]) {
      ConcatIndex(runs, i, p);
      ConcatIndex(runs, i, q);
    }
  }

  lemma CutBoundary(files: seq<File>, es: seq<Entry>, i: nat, j: nat)
    requires IsCut(EntriesOf(files), es) && Sorted(es) && i < j < |files|
    requires files[i].entries != [] && files[j].entries != []
    ensures Less(LargestKey(files[i]), SmallestKey(files[j]))
  {
    hide Less, Concat;
    LessIsOrder();
    var runs := EntriesOf(files);
    ConcatIndex(runs, i, |runs[i]| - 1);
    ConcatIndex(runs, i + 1, 0);
    ConcatIndex(runs, j, 0);
    BaseAscends(runs, i, i + 1);
    if i + 1 < j { BaseAscends(runs, i + 1, j); }
    assert runs[i + 1] == files[i + 1].entries && Last(runs[i]).key != runs[i + 1][0].key;
  }

  /** Cutting a sorted run only between user keys gives files that form a level. */
  lemma CutSorted(files: seq<File>, es: seq<Entry>)
    requires IsCut(EntriesOf(files), es) && Sorted(es) && forall i :: 0 <= i < |files| ==> files[i].size > 0
    ensures LevelSorted(files)
  {
    hide Less, IsCut, Sorted;
    forall i | 0 <= i < |files| ensures FileOk(files[i]) { CutFileOk(files, es, i); }
    forall i, j | 0 <= i < j < |files|
      ensures Less(LargestKey(files[i]), SmallestKey(files[j]))
    {
      CutBoundary(files, es, i, j);
    }
  }

  lemma CutContents(files: seq<File>, es: seq<Entry>)
    requires IsCut(EntriesOf(files), es)
    ensures LevelSet(files) == SetOf(es)
  {
    hide Concat;
    forall x ensures x in LevelSet(files) <==> x in SetOf(es) {
      ConcatContains(EntriesOf(files), x);
      if x in LevelSet(files) {
        var f :| f in files && x in f.entries;
        var i :| 0 <= i < |files| && files[i] == f;
        assert x in EntriesOf(files)[i];
      }
      if x in es {
        var i :| 0 <= i < |EntriesOf(files)| && x in EntriesOf(files)[i];
        assert files[i] in files;
      }
    }
  }

  /** A file left alone lies entirely to one side of everything compacted. */
  ghost predicate ToOneSide(f: File, E: set<Entry>)
    requires f.entries != []
  {
    (forall x :: x in E ==> Less(x.key, SmallestKey(f))) || (forall x :: x in E ==> Less(LargestKey(f), x.key))
  }

  lemma LeftAlone(v: Version, c: Compaction, f: File, lo: Bytes, hi: Bytes)
    requires VersionOk(v) && IsCompaction(v, c) && PicksBelow(v, c, lo, hi)
    requires f in v[c.level + 1] && f !in c.in1
    ensures FileOk(f) && (Less(LargestKey(f), lo) || Less(hi, SmallestKey(f)))
  {
    hide LevelSorted, IsHull, Overlapping, Less, Sorted;
    FileOfLevel(v, c.level + 1, f);
    BelowNonEmpty(v[c.level + 1]);
    OverlappingAre(v[c.level + 1], lo, hi, f);
  }

  /** Where an input lies relative to a file left alone to the right of the hull. */
  lemma InputLeftOf(v: Version, c: Compaction, f: File, lo: Bytes, hi: Bytes, g: File)
    requires VersionOk(v) && IsCompaction(v, c) && PicksBelow(v, c, lo, hi)
    requires f in v[c.level + 1] && f !in c.in1 && FileOk(f) && Less(hi, SmallestKey(f))
    requires g in Inputs(c) && FileOk(g)
    ensures Less(LargestKey(g), SmallestKey(f))
  {
    hide Less, Sorted, ById, LevelZero;
    LessIsOrder();
    In1Are(v, c, g);
    if g in c.in0 {
      assert Leq(LargestKey(g), hi);
    } else {
      BelowNonEmpty(v[c.level + 1]);
      OverlappingAre(v[c.level + 1], lo, hi, g);
      SmallestVsLargest(f);
      EitherSide(v[c.level + 1], f, g);
    }
  }

  lemma InputRightOf(v: Version, c: Compaction, f: File, lo: Bytes, hi: Bytes, g: File)
    requires VersionOk(v) && IsCompaction(v, c) && PicksBelow(v, c, lo, hi)
    requires f in v[c.level + 1] && f !in c.in1 && FileOk(f) && Less(LargestKey(f), lo)
    requires g in Inputs(c) && FileOk(g)
    ensures Less(LargestKey(f), SmallestKey(g))
  {
    hide Less, Sorted, ById, LevelZero;
    LessIsOrder();
    In1Are(v, c, g);
    if g in c.in0 {
      assert Leq(lo, SmallestKey(g));
    } else {
      BelowNonEmpty(v[c.level + 1]);
      OverlappingAre(v[c.level + 1], lo, hi, g);
      SmallestVsLargest(f);
      EitherSide(v[c.level + 1], f, g);
    }
  }

  lemma EitherSide(files: seq<File>, f: File, g: File)
    requires LevelSorted(files) && f in files && g in files && f != g
    ensures Apart(f, g)
  {
    hide Less, Sorted;
    var i :| 0 <= i < |files| && files[i] == f;
    var j :| 0 <= j < |files| && files[j] == g;
  }

  lemma LeftAloneToOneSide(v: Version, c: Compaction, f: File)
    requires VersionOk(v) && IsCompaction(v, c) && f in v[c.level + 1] && f !in c.in1
    ensures FileOk(f) && ToOneSide(f, LevelSet(Inputs(c)))
  {
    hide Less, Sorted, VersionOk, IsCompaction, PicksBelow;
    LessIsOrder();
    var lo, hi := TheHull(v, c);
    LeftAlone(v, c, f, lo, hi);
    InputsOk(v, c);
    if Less(hi, SmallestKey(f)) {
      forall x | x in LevelSet(Inputs(c)) ensures Less(x.key, SmallestKey(f)) {
        var g :| g in Inputs(c) && x in g.entries;
        InputLeftOf(v, c, f, lo, hi, g);
        KeyInRange(g, x);
      }
    } else {
      forall x | x in LevelSet(Inputs(c)) ensures Less(LargestKey(f), x.key) {
        var g :| g in Inputs(c) && x in g.entries;
        InputRightOf(v, c, f, lo, hi, g);
        KeyInRange(g, x);
      }
    }
  }

  lemma TheHull(v: Version, c: Compaction) returns (lo: Bytes, hi: Bytes)
    requires IsCompaction(v, c)
    ensures PicksBelow(v, c, lo, hi)
  {
    lo, hi :| PicksBelow(v, c, lo, hi);
  }

  lemma OutsideApart(f: File, o: File, E: set<Entry>)
    requires FileOk(f) && FileOk(o) && ToOneSide(f, E) && FileSet(o) <= E
    ensures Apart(f, o)
  {
    hide Less, Sorted;
    assert o.entries[0] in FileSet(o) && Last(o.entries) in FileSet(o);
  }

  // --------------------------------------------------------- the new version

  /** Everything a compaction is entitled to assume of the tree it runs on. */
  ghost predicate Ready(v: Version, c: Compaction, outputs: seq<File>) {
    && VersionOk(v) && IsCompaction(v, c) && IsOutput(v, c, outputs)
    && SharedLow(v, c.floor) && SeqUnique(VersionSet(v))
  }

  lemma OutputsLevel(v: Version, c: Compaction, outputs: seq<File>)
    requires Ready(v, c, outputs)
    ensures LevelSorted(outputs) && NoneEmpty(outputs) && NoneEmpty(v[c.level + 1])
    ensures LevelSet(outputs) == SetOf(Output(c)) && LevelSet(outputs) <= LevelSet(Inputs(c))
  {
    hide VersionOk, IsCompaction, Output, Less, Sorted, SharedLow, IsCut;
    OutputIs(v, c);
    CutSorted(outputs, Output(c));
    CutContents(outputs, Output(c));
    BelowOk(v, c);
  }

  lemma BelowOk(v: Version, c: Compaction)
    requires IsCompaction(v, c)
    ensures NoneEmpty(v[c.level + 1])
  {
  }

  ghost function After(v: Version, c: Compaction, outputs: seq<File>): Version
    requires Ready(v, c, outputs)
  {
    OutputsLevel(v, c, outputs);
    Install(v, c.level, Removed(c), outputs)
  }

  lemma AfterShape(v: Version, c: Compaction, outputs: seq<File>)
    requires Ready(v, c, outputs)
    ensures |After(v, c, outputs)| == NUM_LEVELS
    ensures forall l :: 0 <= l < NUM_LEVELS && l != c.level && l != c.level + 1 ==> After(v, c, outputs)[l] == v[l]
    ensures After(v, c, outputs)[c.level] == Without(v[c.level], Removed(c))
    ensures NoneEmpty(Without(v[c.level + 1], Removed(c)) + outputs)
    ensures After(v, c, outputs)[c.level + 1] == SortFiles(Without(v[c.level + 1], Removed(c)) + outputs)
  {
    hide VersionOk, IsOutput, SharedLow, PicksBelow, Without, SortFiles;
    OutputsLevel(v, c, outputs);
    WithoutNonEmpty(v[c.level + 1], Removed(c));
  }

  /** The files after a compaction: the untouched ones where they were, the outputs one
      level down. */
  lemma AfterFiles(v: Version, c: Compaction, outputs: seq<File>, l: nat, f: File)
    requires Ready(v, c, outputs) && l < NUM_LEVELS
    ensures |After(v, c, outputs)| == NUM_LEVELS
    ensures f in After(v, c, outputs)[l] <==> (f in v[l] && f !in Inputs(c)) || (l == c.level + 1 && f in outputs)
  {
    hide VersionOk, IsCompaction, IsOutput, SharedLow, After, SortFiles, Without;
    LevelBound(v, c);
    AfterShape(v, c, outputs);
    if f in v[l] { RemovedAre(v, c, l, f); }
    WithoutAre(v[l], Removed(c), f);
  }

  lemma LevelBound(v: Version, c: Compaction)
    requires IsCompaction(v, c)
    ensures c.level < NUM_LEVELS - 1 && |v| == NUM_LEVELS
  {
  }

  lemma BelowApart(v: Version, c: Compaction, outputs: seq<File>)
    requires Ready(v, c, outputs)
    ensures PairwiseApart(Without(v[c.level + 1], Removed(c)) + outputs)
  {
    hide IsCompaction, IsOutput, SharedLow, Without, LevelSorted, FileOk, Apart, ById, LevelZero;
    LevelBound(v, c);
    OutputsLevel(v, c, outputs);
    var rest := Without(v[c.level + 1], Removed(c));
    WithoutSorted(v[c.level + 1], Removed(c));
    SortedApart(rest);
    SortedApart(outputs);
    forall i, j | 0 <= i < |rest| && 0 <= j < |outputs| ensures Apart(rest[i], outputs[j]) {
      WithoutAre(v[c.level + 1], Removed(c), rest[i]);
      RemovedAre(v, c, c.level + 1, rest[i]);
      RestVersusOutput(v, c, outputs, rest[i], outputs[j]);
    }
    ApartConcat(rest, outputs);
  }

  lemma ApartConcat(a: seq<File>, b: seq<File>)
    requires PairwiseApart(a) && PairwiseApart(b)
    requires forall i, j :: 0 <= i < |a| && 0 <= j < |b| ==> Apart(a[i], b[j])
    ensures PairwiseApart(a + b)
  {
    hide Apart, FileOk;
  }

  lemma SortedApart(files: seq<File>)
    requires LevelSorted(files)
    ensures PairwiseApart(files)
  {
    hide Less, Sorted;
  }

  lemma RestVersusOutput(v: Version, c: Compaction, outputs: seq<File>, f: File, o: File)
    requires Ready(v, c, outputs) && c.level + 1 < |v| && f in v[c.level + 1] && f !in Inputs(c) && o in outputs
    ensures Apart(f, o)
  {
    hide VersionOk, IsCompaction, IsOutput, SharedLow, Less, Sorted, Apart, ToOneSide;
    OutputsLevel(v, c, outputs);
    var i :| 0 <= i < |outputs| && outputs[i] == o;
    LeftAloneToOneSide(v, c, f);
    forall x | x in FileSet(o) ensures x in LevelSet(Inputs(c)) { assert x in LevelSet(outputs); }
    OutsideApart(f, o, LevelSet(Inputs(c)));
  }

  lemma AfterLevels(v: Version, c: Compaction, outputs: seq<File>)
    requires Ready(v, c, outputs)
    ensures |After(v, c, outputs)| == NUM_LEVELS && LevelZero(After(v, c, outputs)[0])
    ensures forall l :: 0 < l < NUM_LEVELS ==> LevelSorted(After(v, c, outputs)[l])
  {
    hide IsCompaction, IsOutput, SharedLow, After, SortFiles, Without, LevelSorted, LevelZero, ById;
    LevelBound(v, c);
    AfterShape(v, c, outputs);
    BelowApart(v, c, outputs);
    SortFilesSorted(Without(v[c.level + 1], Removed(c)) + outputs);
    if c.level == 0 {
      LevelZeroEmptied(v, c);
    } else {
      WithoutSorted(v[c.level], Removed(c));
    }
  }

  lemma LevelZeroEmptied(v: Version, c: Compaction)
    requires VersionOk(v) && IsCompaction(v, c) && c.level == 0
    ensures Without(v[0], Removed(c)) == [] && LevelZero([])
  {
    hide Without, VersionOk, PicksBelow;
    forall f | f in v[0] ensures f.number in Removed(c) { RemovedAre(v, c, 0, f); }
    WithoutNone(v[0], Removed(c));
  }

  lemma {:induction false} WithoutNone(files: seq<File>, removed: set<nat>)
    requires forall f :: f in files ==> f.number in removed
    ensures Without(files, removed) == []
    decreases |files|
  {
    if files != [] { WithoutNone(files[1..], removed); }
  }

  lemma AfterByIdPair(v: Version, c: Compaction, outputs: seq<File>, l: nat, m: nat, f: File, g: File)
    requires Ready(v, c, outputs) && l < NUM_LEVELS && m < NUM_LEVELS && |After(v, c, outputs)| == NUM_LEVELS
    requires f in After(v, c, outputs)[l] && g in After(v, c, outputs)[m] && f.number == g.number
    ensures f == g && l == m
  {
    hide IsCompaction, SharedLow, After, LevelSorted, LevelZero, IsCut, Inputs, SeqUnique;
    AfterFiles(v, c, outputs, l, f);
    AfterFiles(v, c, outputs, m, g);
    LevelBound(v, c);
    assert f in v[l] ==> f in Files(v);
    assert g in v[m] ==> g in Files(v);
    if f in outputs {
      var i :| 0 <= i < |outputs| && outputs[i] == f;
      assert g !in Files(v);
    }
  }

  lemma AfterById(v: Version, c: Compaction, outputs: seq<File>)
    requires Ready(v, c, outputs)
    ensures ById(After(v, c, outputs))
  {
    hide Ready, After;
    AfterLevels(v, c, outputs);
    var w := After(v, c, outputs);
    forall l: nat, m: nat, f: File, g: File | l < |w| && m < |w| && f in w[l] && g in w[m] && f.number == g.number
      ensures f == g && l == m
    {
      AfterByIdPair(v, c, outputs, l, m, f, g);
    }
  }

  /** Compaction keeps the shape of the tree: L0 newest first, every deeper level disjoint
      and sorted, every file in one place. */
  lemma AfterOk(v: Version, c: Compaction, outputs: seq<File>)
    requires Ready(v, c, outputs)
    ensures VersionOk(After(v, c, outputs))
  {
    hide Ready, After, LevelSorted, LevelZero, ById;
    AfterLevels(v, c, outputs);
    AfterById(v, c, outputs);
  }

  // ------------------------------------------------- order, sharing and views

  /** The files of `v` a compaction leaves alone. */
  ghost function RestSet(v: Version, c: Compaction): set<Entry> {
    set f, x | f in Files(v) && f !in Inputs(c) && x in f.entries :: x
  }

  lemma InputLevel(v: Version, c: Compaction, x: Entry)
    requires VersionOk(v) && IsCompaction(v, c) && x in LevelSet(Inputs(c))
    ensures x in LevelSet(v[c.level]) || x in LevelSet(v[c.level + 1])
  {
    hide VersionOk, IsCompaction;
    LevelBound(v, c);
    var f :| f in Inputs(c) && x in f.entries;
    In1Are(v, c, f);
  }

  /** An input entry against an untouched file of its own or the next level. */
  lemma RestBesideInput(v: Version, c: Compaction, l: nat, g: File, x: Entry, y: Entry)
    requires VersionOk(v) && IsCompaction(v, c) && LevelsOrdered(v)
    requires l < NUM_LEVELS && l <= c.level + 1 && g in v[l] && g !in Inputs(c) && y in g.entries
    requires x in LevelSet(Inputs(c)) && x.key == y.key
    ensures l <= c.level && y.sn >= x.sn
  {
    hide VersionOk, IsCompaction, Newer;
    LevelBound(v, c);
    if l == c.level + 1 {
      NotBeside(v, c, g, x, y);
    } else {
      RestAboveInput(v, c, l, g, x, y);
    }
  }

  lemma NotBeside(v: Version, c: Compaction, g: File, x: Entry, y: Entry)
    requires VersionOk(v) && IsCompaction(v, c)
    requires g in v[c.level + 1] && g !in Inputs(c) && y in g.entries && x in LevelSet(Inputs(c))
    ensures x.key != y.key
  {
    hide VersionOk, IsCompaction, Less, Sorted, LevelSet;
    LessIsOrder();
    LeftAloneToOneSide(v, c, g);
    KeyInRange(g, y);
  }

  lemma RestAboveInput(v: Version, c: Compaction, l: nat, g: File, x: Entry, y: Entry)
    requires VersionOk(v) && IsCompaction(v, c) && LevelsOrdered(v)
    requires l <= c.level && g in v[l] && g !in Inputs(c) && y in g.entries
    requires x in LevelSet(Inputs(c)) && x.key == y.key
    ensures y.sn >= x.sn
  {
    hide VersionOk, IsCompaction;
    LevelBound(v, c);
    var f :| f in Inputs(c) && x in f.entries;
    In1Are(v, c, f);
    assert y in LevelSet(v[l]);
    if f in v[c.level + 1] {
      assert x in LevelSet(v[c.level + 1]);
      assert Newer(LevelSet(v[l]), LevelSet(v[c.level + 1]));
    } else {
      assert x in LevelSet(v[c.level]);
      if l == c.level {
        SameLevelRest(v, c, f, g, x, y);
      } else {
        assert Newer(LevelSet(v[l]), LevelSet(v[c.level]));
      }
    }
  }

  lemma SameLevelRest(v: Version, c: Compaction, f: File, g: File, x: Entry, y: Entry)
    requires VersionOk(v) && IsCompaction(v, c) && f in v[c.level] && f in Inputs(c) && g in v[c.level]
    requires g !in Inputs(c)
    requires x in f.entries && y in g.entries
    ensures x.key != y.key
  {
    hide LevelSorted, PicksBelow, ById, LevelZero;
    if c.level > 0 && x.key == y.key { OneFilePerKey(v[c.level], f, g, x, y); }
  }

  /** Compaction leaves shallower sources at least as new as deeper ones. */
  lemma AfterOrder(v: Version, c: Compaction, outputs: seq<File>, mem: set<Entry>, imm: set<Entry>)
    requires Ready(v, c, outputs) && OrderOk(mem, imm, v)
    ensures OrderOk(mem, imm, After(v, c, outputs))
  {
    hide Ready, After, LevelsOrdered;
    AfterSubset(v, c, outputs);
    AfterLevelsOrdered(v, c, outputs);
  }

  lemma AfterEntry(v: Version, c: Compaction, outputs: seq<File>, l: nat, x: Entry)
    requires Ready(v, c, outputs) && l < NUM_LEVELS && |After(v, c, outputs)| == NUM_LEVELS
    requires x in LevelSet(After(v, c, outputs)[l])
    ensures (exists f :: f in v[l] && f !in Inputs(c) && x in f.entries)
      || (l == c.level + 1 && x in LevelSet(Inputs(c)))
  {
    hide Ready, After;
    var f :| f in After(v, c, outputs)[l] && x in f.entries;
    AfterFiles(v, c, outputs, l, f);
    OutputsLevel(v, c, outputs);
    if f in outputs { assert x in LevelSet(outputs); }
  }

  lemma AfterSubset(v: Version, c: Compaction, outputs: seq<File>)
    requires Ready(v, c, outputs)
    ensures VersionSet(After(v, c, outputs)) <= VersionSet(v)
  {
    hide Ready, After;
    AfterLevels(v, c, outputs);
    InputsWithin(v, c, outputs);
    var w := After(v, c, outputs);
    forall x | x in VersionSet(w) ensures x in VersionSet(v) {
      var l: nat, f: File :| l < |w| && f in w[l] && x in f.entries;
      AfterEntry(v, c, outputs, l, x);
    }
  }

  lemma InputsWithin(v: Version, c: Compaction, outputs: seq<File>)
    requires Ready(v, c, outputs)
    ensures LevelSet(Inputs(c)) <= VersionSet(v) && |v| == NUM_LEVELS
  {
    hide VersionOk, IsCompaction;
    StreamIs(v, c);
    LevelBound(v, c);
  }

  lemma AfterLevelPair(v: Version, c: Compaction, outputs: seq<File>, l: nat, m: nat, x: Entry, y: Entry)
    requires Ready(v, c, outputs) && LevelsOrdered(v) && l < m < NUM_LEVELS && |After(v, c, outputs)| == NUM_LEVELS
    requires x in LevelSet(After(v, c, outputs)[l]) && y in LevelSet(After(v, c, outputs)[m]) && x.key == y.key
    ensures x.sn >= y.sn
  {
    hide After, VersionOk, IsCompaction, IsOutput, SharedLow, SeqUnique;
    LevelBound(v, c);
    AfterEntry(v, c, outputs, l, x);
    AfterEntry(v, c, outputs, m, y);
    if f :| f in v[l] && f !in Inputs(c) && x in f.entries {
      assert x in LevelSet(v[l]);
      if g :| g in v[m] && g !in Inputs(c) && y in g.entries {
        assert y in LevelSet(v[m]);
        assert Newer(LevelSet(v[l]), LevelSet(v[m]));
      } else {
        RestAboveInput(v, c, l, f, y, x);
      }
    } else {
      var g :| g in v[m] && g !in Inputs(c) && y in g.entries;
      assert y in LevelSet(v[m]);
      InputLevel(v, c, x);
      assert Newer(LevelSet(v[c.level]), LevelSet(v[m])) && Newer(LevelSet(v[c.level + 1]), LevelSet(v[m]));
    }
  }

  lemma AfterLevelsOrdered(v: Version, c: Compaction, outputs: seq<File>)
    requires Ready(v, c, outputs) && LevelsOrdered(v)
    ensures LevelsOrdered(After(v, c, outputs))
  {
    hide Ready, After, LevelSet, FileSet;
    AfterLevels(v, c, outputs);
    var w := After(v, c, outputs);
    forall l, m | 0 <= l < m < |w| ensures Newer(LevelSet(w[l]), LevelSet(w[m])) {
      forall x, y | x in LevelSet(w[l]) && y in LevelSet(w[m]) && x.key == y.key ensures x.sn >= y.sn {
        AfterLevelPair(v, c, outputs, l, m, x, y);
      }
    }
    AfterLevelZero(v, c, outputs);
  }

  lemma AfterLevelZero(v: Version, c: Compaction, outputs: seq<File>)
    requires Ready(v, c, outputs)
    ensures |v| == NUM_LEVELS == |After(v, c, outputs)|
    ensures (After(v, c, outputs)[0] == [] || After(v, c, outputs)[0] == v[0])
  {
    hide IsCompaction, IsOutput, SharedLow, After, VersionOk, Without;
    LevelBound(v, c);
    AfterShape(v, c, outputs);
    if c.level == 0 { LevelZeroEmptied(v, c); }
  }

  lemma AfterShared(v: Version, c: Compaction, outputs: seq<File>, floor: nat)
    requires Ready(v, c, outputs) && SharedLow(v, floor)
    ensures SharedLow(After(v, c, outputs), floor)
  {
    hide Ready, After;
    AfterLevels(v, c, outputs);
    var w := After(v, c, outputs);
    forall f, g, x | f in Files(w) && g in Files(w) && f != g && x in f.entries && x in g.entries
      ensures x.sn <= floor
    {
      var l: nat :| l < |w| && f in w[l];
      var m: nat :| m < |w| && g in w[m];
      AfterFiles(v, c, outputs, l, f);
      AfterFiles(v, c, outputs, m, g);
      ReadyBound(v, c, outputs);
      SharedPair(v, c, outputs, floor, f, g, x);
    }
  }

  lemma SharedPair(v: Version, c: Compaction, outputs: seq<File>, floor: nat, f: File, g: File, x: Entry)
    requires Ready(v, c, outputs) && SharedLow(v, floor) && f != g && x in f.entries && x in g.entries
    requires (f in Files(v) && f !in Inputs(c)) || f in outputs
    requires (g in Files(v) && g !in Inputs(c)) || g in outputs
    ensures x.sn <= floor
  {
    hide VersionOk, IsCompaction, IsOutput, After, SharedLow;
    OutputsLevel(v, c, outputs);
    InputsOk(v, c);
    if f in outputs && g in outputs {
      OneFilePerKey(outputs, f, g, x, x);
    } else if f in outputs {
      assert x in LevelSet(outputs);
      var h :| h in Inputs(c) && x in h.entries;
      SharedIn(v, floor, h, g, x);
    } else if g in outputs {
      assert x in LevelSet(outputs);
      var h :| h in Inputs(c) && x in h.entries;
      SharedIn(v, floor, h, f, x);
    } else {
      SharedIn(v, floor, f, g, x);
    }
  }

  lemma SharedIn(v: Version, floor: nat, f: File, g: File, x: Entry)
    requires SharedLow(v, floor) && f in Files(v) && g in Files(v) && f != g && x in f.entries && x in g.entries
    ensures x.sn <= floor
  {
  }

  lemma AfterSet(v: Version, c: Compaction, outputs: seq<File>)
    requires Ready(v, c, outputs)
    ensures VersionSet(After(v, c, outputs)) == RestSet(v, c) + SetOf(Output(c))
    ensures VersionSet(v) == RestSet(v, c) + SetOf(Stream(c))
  {
    hide Ready, After, Output, Stream;
    AfterLevels(v, c, outputs);
    OutputsLevel(v, c, outputs);
    StreamSet(v, c, outputs);
    var w := After(v, c, outputs);
    forall x ensures x in VersionSet(w) <==> x in RestSet(v, c) + LevelSet(outputs) {
      if x in VersionSet(w) {
        var l: nat, f: File :| l < |w| && f in w[l] && x in f.entries;
        AfterFiles(v, c, outputs, l, f);
      }
      if x in RestSet(v, c) {
        var f :| f in Files(v) && f !in Inputs(c) && x in f.entries;
        var l: nat :| l < |v| && f in v[l];
        AfterFiles(v, c, outputs, l, f);
      }
      if x in LevelSet(outputs) {
        var f :| f in outputs && x in f.entries;
        ReadyBound(v, c, outputs);
        AfterFiles(v, c, outputs, c.level + 1, f);
      }
    }
  }

  lemma ReadyBound(v: Version, c: Compaction, outputs: seq<File>)
    requires Ready(v, c, outputs)
    ensures c.level < NUM_LEVELS - 1 && |v| == NUM_LEVELS
  {
    hide IsCompaction;
    LevelBound(v, c);
  }

  lemma StreamSet(v: Version, c: Compaction, outputs: seq<File>)
    requires Ready(v, c, outputs)
    ensures |v| == NUM_LEVELS && VersionSet(v) == RestSet(v, c) + SetOf(Stream(c))
  {
    hide IsCompaction, VersionOk, Stream, IsOutput, SharedLow, SeqUnique;
    LevelBound(v, c);
    StreamIs(v, c);
    InputsOk(v, c);
    forall x | x in VersionSet(v) ensures x in RestSet(v, c) + LevelSet(Inputs(c)) {
      var l: nat, f :| l < |v| && f in v[l] && x in f.entries;
      assert f in Files(v);
    }
    forall x | x in RestSet(v, c) ensures x in VersionSet(v) {
      var f :| f in Files(v) && f !in Inputs(c) && x in f.entries;
      InVersionSet(v, f, x);
    }
  }

  lemma NothingUnderBottom(v: Version, c: Compaction, outputs: seq<File>, mem: set<Entry>, imm: set<Entry>)
    requires Ready(v, c, outputs) && OrderOk(mem, imm, v) && c.bottom
    ensures NothingBelow(SetOf(Stream(c)), mem + imm + RestSet(v, c))
  {
    hide VersionOk, IsOutput, SharedLow, SeqUnique, IsCompaction, Stream, LevelsOrdered;
    StreamIs(v, c);
    forall x, y | x in SetOf(Stream(c)) && y in mem + imm + RestSet(v, c) && x.key == y.key ensures y.sn >= x.sn {
      if y in mem + imm {
        assert x in VersionSet(v);
      } else {
        RestNotBelow(v, c, x, y);
      }
    }
  }

  lemma RestNotBelow(v: Version, c: Compaction, x: Entry, y: Entry)
    requires VersionOk(v) && IsCompaction(v, c) && LevelsOrdered(v) && c.bottom
    requires x in LevelSet(Inputs(c)) && y in RestSet(v, c) && x.key == y.key
    ensures y.sn >= x.sn
  {
    hide VersionOk, PicksBelow, LevelsOrdered, Inputs;
    var g :| g in Files(v) && g !in Inputs(c) && y in g.entries;
    var l: nat :| l < |v| && g in v[l];
    RestBesideInput(v, c, l, g, x, y);
  }

  /** Compaction preserves meaning: no read at or above the smallest snapshot changes, and in
      particular no deleted key reappears. */
  lemma AfterView(v: Version, c: Compaction, outputs: seq<File>, mem: set<Entry>, imm: set<Entry>, key: Bytes, sn: nat)
    requires Ready(v, c, outputs) && OrderOk(mem, imm, v) && SeqUnique(mem + imm + VersionSet(v)) && c.floor <= sn
    ensures View(mem + imm + VersionSet(After(v, c, outputs)), key, sn) == View(mem + imm + VersionSet(v), key, sn)
  {
    hide Ready, After, OrderOk, View, Stream, Output, RestSet, VersionSet;
    AfterSet(v, c, outputs);
    var rest := mem + imm + RestSet(v, c);
    assert mem + imm + VersionSet(v) == rest + SetOf(Stream(c));
    assert mem + imm + VersionSet(After(v, c, outputs)) == rest + SetOf(Output(c));
    if c.bottom { NothingUnderBottom(v, c, outputs, mem, imm); }
    StreamAscends(v, c, outputs);
    OutputIsSurvivors(c);
    CollapseKeepsView(Stream(c), c.floor, c.bottom, rest, key, sn);
  }

  lemma StreamAscends(v: Version, c: Compaction, outputs: seq<File>)
    requires Ready(v, c, outputs)
    ensures Ascending(Stream(c))
  {
    hide VersionOk, IsCompaction;
    StreamIs(v, c);
  }

  lemma OutputIsSurvivors(c: Compaction)
    ensures Output(c) == AllSurvivors(Stream(c), c.floor, c.bottom)
  {
  }

  // ------------------------------------------------------------------- flush

  /** A flushed memtable becomes the newest L0 file. */
  function AddNewest(v: Version, f: File): Version
    requires |v| == NUM_LEVELS
  {
    v[0 := [f] + v[0]]
  }

  ghost predicate IsNewNumber(v: Version, n: nat) {
    forall f :: f in Files(v) ==> f.number < n
  }

  lemma AddNewestFiles(v: Version, f: File)
    requires |v| == NUM_LEVELS
    ensures Files(AddNewest(v, f)) == Files(v) + {f}
    ensures VersionSet(AddNewest(v, f)) == VersionSet(v) + FileSet(f)
  {
    var w := AddNewest(v, f);
    forall g ensures g in Files(w) <==> g in Files(v) + {f} {
      if g in Files(v) {
        var l: nat :| l < |v| && g in v[l];
        assert g in w[l];
      }
      if g in Files(w) && g != f {
        var l: nat :| l < |w| && g in w[l];
        assert g in v[l];
      }
      assert f in w[0];
    }
    forall x ensures x in VersionSet(w) <==> x in VersionSet(v) + FileSet(f) {
      ContentsByFile(w, x);
      ContentsByFile(v, x);
    }
  }

  lemma ContentsByFile(v: Version, x: Entry)
    ensures x in VersionSet(v) <==> exists f :: f in Files(v) && x in f.entries
  {
  }

  lemma AddNewestOk(v: Version, f: File)
    requires VersionOk(v) && FileOk(f) && IsNewNumber(v, f.number)
    ensures VersionOk(AddNewest(v, f))
  {
    hide FileOk, LevelSorted, ById;
    forall g | g in v[0] ensures g.number < f.number { assert g in Files(v); }
    AddNewestById(v, f);
  }

  lemma AddNewestById(v: Version, f: File)
    requires |v| == NUM_LEVELS && ById(v) && IsNewNumber(v, f.number)
    ensures ById(AddNewest(v, f))
  {
    var w := AddNewest(v, f);
    forall l, m, g: File, h: File | 0 <= l < |w| && 0 <= m < |w| && g in w[l] && h in w[m] && g.number == h.number
      ensures g == h && l == m
    {
      AddNewestWhere(v, f, l, g);
      AddNewestWhere(v, f, m, h);
    }
  }

  lemma AddNewestWhere(v: Version, f: File, l: nat, g: File)
    requires |v| == NUM_LEVELS && IsNewNumber(v, f.number) && l < NUM_LEVELS && g in AddNewest(v, f)[l]
    ensures (g in v[l] && g.number < f.number) || (g == f && l == 0)
  {
    if g in v[l] { assert g in Files(v); }
  }

  lemma AddNewestOrder(v: Version, f: File)
    requires |v| == NUM_LEVELS && LevelsOrdered(v) && Newer(FileSet(f), VersionSet(v))
    ensures LevelsOrdered(AddNewest(v, f))
  {
    hide FileSet;
    var w := AddNewest(v, f);
    assert LevelSet(w[0]) == LevelSet(v[0]) + FileSet(f) by { LevelPrepend(f, v[0]); }
    forall l, m | 0 <= l < m < |w| ensures Newer(LevelSet(w[l]), LevelSet(w[m])) {
      LevelInVersion(v, m);
      assert w[m] == v[m];
      assert Newer(LevelSet(v[l]), LevelSet(v[m]));
    }
    forall i, j | 0 <= i < j < |w[0]| ensures Newer(FileSet(w[0][i]), FileSet(w[0][j])) {
      assert w[0][j] == v[0][j - 1];
      LevelInVersion(v, 0);
      assert FileSet(v[0][j - 1]) <= LevelSet(v[0]) <= VersionSet(v);
      if i > 0 { assert w[0][i] == v[0][i - 1]; }
    }
  }

  lemma LevelPrepend(f: File, files: seq<File>)
    ensures LevelSet([f] + files) == LevelSet(files) + FileSet(f)
  {
    forall x ensures x in LevelSet([f] + files) <==> x in LevelSet(files) + FileSet(f) {
      if x in LevelSet(files) { var g :| g in files && x in g.entries; assert g in [f] + files; }
      if x in FileSet(f) { assert f in [f] + files; }
    }
  }

  lemma AddNewestShared(v: Version, f: File, floor: nat)
    requires |v| == NUM_LEVELS && SharedLow(v, floor)
    requires forall x :: x in f.entries && x in VersionSet(v) ==> x.sn <= floor
    ensures SharedLow(AddNewest(v, f), floor)
  {
    AddNewestFiles(v, f);
    forall g, h, x | g in Files(AddNewest(v, f)) && h in Files(AddNewest(v, f)) && g != h && x in g.entries
      && x in h.entries
      ensures x.sn <= floor
    {
      if g == f { InVersionSet(v, h, x); } else if h == f { InVersionSet(v, g, x); }
    }
  }

  /** The newest version of the first key always survives a flush. */
  lemma {:induction false} FlushNonEmpty(es: seq<Entry>, n: nat, floor: nat)
    requires 0 < n <= |es|
    ensures Survivors(es, n, floor, false) != []
    decreases n
  {
    if n > 1 { FlushNonEmpty(es, n - 1, floor); }
  }

  /** With every sequence at or below the floor, only the newest version of a key survives. */
  lemma OnlyNewestSurvive(es: seq<Entry>, floor: nat, x: Entry, y: Entry)
    requires Ascending(es) && x in AllSurvivors(es, floor, false) && y in es && x.key == y.key
    requires forall i :: 0 <= i < |es| ==> es[i].sn <= floor
    ensures x.sn >= y.sn
  {
    SurvivorsAre(es, |es|, floor, false, x);
    var i :| 0 <= i < |es| && es[i] == x && Kept(es, i, floor, false);
    var j :| 0 <= j < |es| && es[j] == y;
    if j < i {
      SameKeyBetween(es, j, i - 1, i);
    } else {
      SameKeyBetween(es, i, j, j);
      TagMonotone(es[i], es[j]);
    }
  }

  lemma SortedAscends(es: seq<Entry>)
    requires Sorted(es)
    ensures Ascending(es) && RepeatsLow(es, 0)
  {
    hide Before, SameKey;
    BeforeIsOrder();
    SameKeyBefore();
    forall i | 0 < i < |es| ensures !SameKey(es[i - 1], es[i]) { assert Before(es[i - 1], es[i]); }
  }

  /** The file a flush writes: sorted, non-empty, and part of the memtable. */
  lemma FlushOutput(es: seq<Entry>, floor: nat)
    requires Sorted(es) && es != []
    ensures var out := AllSurvivors(es, floor, false);
      out != [] && Sorted(out) && SetOf(out) <= SetOf(es)
  {
    hide Before, Survivors;
    SortedAscends(es);
    assert RepeatsLow(es, floor);
    FlushNonEmpty(es, |es|, floor);
    SurvivorsSorted(es, |es|, floor, false);
    forall x | x in AllSurvivors(es, floor, false) ensures x in es { SurvivorsSubset(es, floor, false, x); }
  }
}
