/** Range scans, after LevelIterator and DBIter in src/db.cpp.

    `LevelIterator` concatenates the disjoint files of one level into a single run. `DBIter`
    collapses the merged internal-key stream into live rows at one sequence number. The main
    result is that the rows of a scan are exactly the keys a point read finds. */
module Scans {
  import opened ByteStrings
  import opened InternalKeys
  import opened Views
  import opened MergeSpec
  import opened MergingIterators

  // ----------------------------------------------------------- level cursors

  function Concat(files: seq<seq<Entry>>): seq<Entry> {
    if files == [] then [] else files[0] + Concat(files[1..])
  }

  lemma {:induction false} ConcatSplit(files: seq<seq<Entry>>, i: nat)
    requires i <= |files|
    ensures Concat(files) == Concat(files[..i]) + Concat(files[i..])
    decreases |files|
  {
    if i > 0 {
      ConcatSplit(files[1..], i - 1);
      assert files[1..][..i - 1] == files[..i][1..] && files[1..][i - 1..] == files[i..];
      assert Concat(files[..i]) == files[0] + Concat(files[..i][1..]);
    } else {
      assert files[..0] == [] && files[0..] == files;
    }
  }

  lemma {:induction false} ConcatContains(files: seq<seq<Entry>>, e: Entry)
    ensures e in Concat(files) <==> exists i :: 0 <= i < |files| && e in files[i]
    decreases |files|
  {
    if files != [] {
      ConcatContains(files[1..], e);
      if e in Concat(files[1..]) {
        var i :| 0 <= i < |files[1..]| && e in files[1..][i];
        assert e in files[i + 1];
      }
      if i :| 0 <= i < |files| && e in files[i] && i > 0 { assert e in files[1..][i - 1]; }
    }
  }

  lemma DropFirst(file: seq<Entry>, offset: nat, more: seq<Entry>)
    requires offset < |file|
    ensures file[offset..] + more != [] && (file[offset..] + more)[1..] == file[offset + 1..] + more
  {
  }

  /** A level below L0: non-empty files whose concatenation is one sorted run. */
  ghost predicate IsRun(files: seq<seq<Entry>>) {
    Sorted(Concat(files)) && forall i :: 0 <= i < |files| ==> files[i] != []
  }

  class LevelIterator {
    const files: seq<seq<Entry>>
    var index: nat
    var offset: nat

    constructor (level: seq<seq<Entry>>)
      requires IsRun(level)
      ensures files == level && Valid() && index == |files|
    {
      files := level;
      index := |level|;
      offset := 0;
    }

    ghost predicate Valid()
      reads this
    {
      IsRun(files) && index <= |files| && (index < |files| ==> offset < |files[index]|)
    }

    /** The part of the level's run the cursor has yet to yield. */
    ghost function Rest(): seq<Entry>
      requires index <= |files| && (index < |files| ==> offset <= |files[index]|)
      reads this
    {
      if index < |files| then files[index][offset..] + Concat(files[index + 1..]) else []
    }

    method SkipEmptyFilesForward()
      requires IsRun(files) && index <= |files| && (index < |files| ==> offset <= |files[index]|)
      modifies this
      ensures Valid() && Rest() == old(Rest())
    {
      while index < |files| && offset >= |files[index]|
        invariant index <= |files| && (index < |files| ==> offset <= |files[index]|)
        invariant Rest() == old(Rest())
        decreases |files| - index
      {
        assert files[index + 1..] != [] ==>
          Concat(files[index + 1..]) == files[index + 1] + Concat(files[index + 1..][1..]);
        index := index + 1;
        offset := 0;
        assert index < |files| ==> files[index..][1..] == files[index + 1..];
      }
    }

    method SeekToFirst()
      requires IsRun(files)
      modifies this
      ensures Valid() && Rest() == Concat(files)
    {
      index := 0;
      offset := 0;
      SkipEmptyFilesForward();
    }

    method Next()
      requires Valid() && index < |files|
      modifies this
      ensures Valid() && old(Rest()) != [] && Rest() == old(Rest())[1..]
    {
      hide Sorted, Concat;
      DropFirst(files[index], offset, Concat(files[index + 1..]));
      offset := offset + 1;
      SkipEmptyFilesForward();
    }

    lemma CurrentEntry()
      requires Valid()
      ensures index < |files| ==> Rest() != [] && Rest()[0] == files[index][offset]
      ensures index == |files| ==> Rest() == []
    {
      hide Sorted, Concat;
    }

    /** Binary search over the files' largest keys, then a seek inside the one file. */
    method Seek(target: Entry)
      requires IsRun(files)
      modifies this
      ensures Valid() && Rest() == Concat(files)[SeekIndex(Concat(files), target)..]
    {
      hide Before;
      var lo, hi := 0, |files|;
      while lo < hi
        invariant 0 <= lo <= hi <= |files|
        invariant forall i :: 0 <= i < lo ==> Before(Last(files[i]), target)
        invariant forall i :: hi <= i < |files| ==> !Before(Last(files[i]), target)
        decreases hi - lo
      {
        var mid := lo + (hi - lo) / 2;
        LastsAscend(files);
        BeforeIsOrder();
        if Before(Last(files[mid]), target) { lo := mid + 1; } else { hi := mid; }
      }
      index := lo;
      offset := if lo < |files| then SeekIndex(files[lo], target) else 0;
      SeekInLevel(files, target, lo);
      SkipEmptyFilesForward();
    }
  }

  function Last(es: seq<Entry>): Entry
    requires es != []
  {
    es[|es| - 1]
  }

  /** Position of file `i`'s first entry within the level. */
  function Base(files: seq<seq<Entry>>, i: nat): nat
    requires i <= |files|
  {
    |Concat(files[..i])|
  }

  lemma ConcatIndex(files: seq<seq<Entry>>, i: nat, k: nat)
    requires i < |files| && k < |files[i]|
    ensures Base(files, i) + k < |Concat(files)| && Concat(files)[Base(files, i) + k] == files[i][k]
  {
    ConcatSplit(files, i);
    assert files[i..] != [] && files[i..][0] == files[i];
    assert Concat(files[i..]) == files[i] + Concat(files[i..][1..]);
  }

  lemma BaseAscends(files: seq<seq<Entry>>, i: nat, j: nat)
    requires i < j < |files|
    ensures Base(files, i) + |files[i]| <= Base(files, j)
  {
    var pre := files[..j];
    ConcatSplit(pre, i);
    assert pre[..i] == files[..i] && pre[i..] != [] && pre[i..][0] == files[i];
    assert Concat(pre[i..]) == files[i] + Concat(pre[i..][1..]);
  }

  lemma LastsAscend(files: seq<seq<Entry>>)
    requires IsRun(files)
    ensures forall i, j :: 0 <= i < j < |files| ==> Before(Last(files[i]), Last(files[j]))
  {
    hide Before;
    forall i, j | 0 <= i < j < |files| ensures Before(Last(files[i]), Last(files[j])) {
      ConcatIndex(files, i, |files[i]| - 1);
      ConcatIndex(files, j, |files[j]| - 1);
      BaseAscends(files, i, j);
    }
  }

  lemma SeekUnique(run: seq<Entry>, target: Entry, p: nat)
    requires p <= |run| && (forall i :: 0 <= i < p ==> Before(run[i], target))
    requires (p < |run| ==> !Before(run[p], target))
    ensures SeekIndex(run, target) == p
  {
    hide Before;
  }

  lemma EarlierFilesBefore(files: seq<seq<Entry>>, target: Entry, lo: nat, q: nat)
    requires IsRun(files) && lo <= |files| && q < Base(files, lo)
    requires forall i :: 0 <= i < lo ==> Before(Last(files[i]), target)
    ensures q < |Concat(files)| && Before(Concat(files)[q], target)
  {
    hide Before;
    BeforeIsOrder();
    ConcatSplit(files, lo);
    if lo > 0 {
      ConcatIndex(files, lo - 1, |files[lo - 1]| - 1);
      PrefixEnd(files, lo);
      assert q < Base(files, lo) - 1 ==> Before(Concat(files)[q], Concat(files)[Base(files, lo) - 1]);
    }
  }

  /** The file found by binary search, seeked on its own, is the level seeked as a whole. */
  lemma SeekInLevel(files: seq<seq<Entry>>, target: Entry, lo: nat)
    requires IsRun(files) && lo <= |files|
    requires forall i :: 0 <= i < lo ==> Before(Last(files[i]), target)
    requires lo < |files| ==> !Before(Last(files[lo]), target)
    ensures var all := Concat(files);
      all[SeekIndex(all, target)..]
      == if lo < |files| then files[lo][SeekIndex(files[lo], target)..] + Concat(files[lo + 1..]) else []
  {
    hide Before, Sorted, SeekIndex;
    var pre := Concat(files[..lo]);
    ConcatSplit(files, lo);
    forall q | 0 <= q < |pre| ensures Before(pre[q], target) { EarlierFilesBefore(files, target, lo, q); }
    if lo < |files| {
      assert files[lo..][0] == files[lo] && files[lo..][1..] == files[lo + 1..];
      SeekThrough(pre, files[lo], Concat(files[lo + 1..]), target);
      assert Concat(files) == pre + files[lo] + Concat(files[lo + 1..]);
    } else {
      assert Concat(files) == pre;
      SeekPast(pre, target);
    }
  }

  lemma SeekThrough(pre: seq<Entry>, mid: seq<Entry>, post: seq<Entry>, target: Entry)
    requires mid != [] && !Before(Last(mid), target) && forall q :: 0 <= q < |pre| ==> Before(pre[q], target)
    ensures var all := pre + mid + post; all[SeekIndex(all, target)..] == mid[SeekIndex(mid, target)..] + post
  {
    hide Before;
    var all, off := pre + mid + post, SeekIndex(mid, target);
    assert off < |mid|;
    SeekUnique(all, target, |pre| + off);
  }

  lemma SeekPast(run: seq<Entry>, target: Entry)
    requires forall q :: 0 <= q < |run| ==> Before(run[q], target)
    ensures run[SeekIndex(run, target)..] == []
  {
    hide Before;
    SeekUnique(run, target, |run|);
  }

  lemma PrefixEnd(files: seq<seq<Entry>>, lo: nat)
    requires 0 < lo <= |files|
    ensures Base(files, lo) == Base(files, lo - 1) + |files[lo - 1]|
  {
    var pre := files[..lo];
    ConcatSplit(pre, lo - 1);
    assert pre[..lo - 1] == files[..lo - 1] && pre[lo - 1..] == [files[lo - 1]];
    assert Concat([files[lo - 1]]) == files[lo - 1] + Concat([]);
  }

  // ------------------------------------------------------------------- rows

  function SetOf(es: seq<Entry>): set<Entry> {
    set e | e in es
  }

  /** Ascending internal keys; equal keys may repeat (the same entry in two sources). */
  ghost predicate Ascending(es: seq<Entry>) {
    forall i, j :: 0 <= i < j < |es| ==> !Before(es[j], es[i])
  }

  function SkipKey(es: seq<Entry>, key: Bytes): (r: seq<Entry>)
    ensures |r| <= |es|
  {
    if es == [] || es[0].key != key then es else SkipKey(es[1..], key)
  }

  lemma {:induction false} SkipKeySuffix(es: seq<Entry>, key: Bytes) returns (n: nat)
    ensures n <= |es| && SkipKey(es, key) == es[n..]
    ensures forall i :: 0 <= i < n ==> es[i].key == key
    ensures n < |es| ==> es[n].key != key
    decreases |es|
  {
    if es == [] || es[0].key != key {
      n := 0;
    } else {
      n := SkipKeySuffix(es[1..], key);
      n := n + 1;
    }
  }

  datatype Row = Row(key: Bytes, value: Bytes)

  /** The live rows of an ascending stream at `sn`: the newest visible version of each key,
      hidden entirely if it is a tombstone. */
  ghost function Collapse(es: seq<Entry>, sn: nat): seq<Row>
    decreases |es|
  {
    if es == [] then []
    else if es[0].sn > sn then Collapse(es[1..], sn)
    else
      if es[0].kind.Deletion? then Collapse(SkipKey(es[1..], es[0].key), sn)
      else [Row(es[0].key, es[0].value)] + Collapse(SkipKey(es[1..], es[0].key), sn)
  }

  ghost predicate RowsAscend(rows: seq<Row>) {
    forall i, j :: 0 <= i < j < |rows| ==> Less(rows[i].key, rows[j].key)
  }

  lemma AscendingTail(es: seq<Entry>, n: nat)
    requires Ascending(es) && n <= |es|
    ensures Ascending(es[n..])
  {
    hide Before;
  }

  /** In an ascending stream the versions of one key are contiguous, newest first. */
  lemma FirstIsNewest(es: seq<Entry>, sn: nat)
    requires es != [] && Ascending(es) && es[0].sn <= sn
    ensures IsNewest(es[0], SetOf(es), es[0].key, sn)
  {
    hide Less;
    LessIsOrder();
    forall x | x in SetOf(es) && Hit(x, es[0].key, sn) ensures x.sn <= es[0].sn {
      var j :| 0 <= j < |es| && es[j] == x;
      if j > 0 { assert !Before(es[j], es[0]); }
    }
  }

  lemma SkippedKeyGone(es: seq<Entry>, n: nat)
    requires Ascending(es) && 0 < n <= |es| && (n < |es| ==> es[n].key != es[0].key)
    ensures forall x :: x in SetOf(es[n..]) ==> Less(es[0].key, x.key)
  {
    hide Less;
    LessIsOrder();
    forall x | x in SetOf(es[n..]) ensures Less(es[0].key, x.key) {
      var j :| n <= j < |es| && es[j] == x;
      assert !Before(es[n], es[0]);
      if n < j { assert !Before(es[j], es[n]); }
    }
  }

  /** The rows of a stream are exactly the keys whose view is a live value, in key order. */
  lemma {:induction false} CollapseIsView(es: seq<Entry>, sn: nat)
    requires Ascending(es) && SeqUnique(SetOf(es))
    ensures forall key, value :: Row(key, value) in Collapse(es, sn) <==> View(SetOf(es), key, sn) == Some(value)
    ensures RowsAscend(Collapse(es, sn))
    ensures forall r :: r in Collapse(es, sn) ==> exists x :: x in es && x.key == r.key
    decreases |es|
  {
    hide View, Less, Before, IsNewest;
    if es == [] {
      forall key ensures View(SetOf(es), key, sn) == None { ViewNone(SetOf(es), key, sn); }
    } else if es[0].sn > sn {
      AscendingTail(es, 1);
      CollapseIsView(es[1..], sn);
      forall key ensures View(SetOf(es), key, sn) == View(SetOf(es[1..]), key, sn) {
        ViewSame(SetOf(es), SetOf(es[1..]), key, sn);
      }
    } else {
      var m := SkipKeySuffix(es[1..], es[0].key);
      CollapseStep(es, sn, m + 1);
    }
  }

  lemma CollapseStep(es: seq<Entry>, sn: nat, n: nat)
    requires Ascending(es) && SeqUnique(SetOf(es)) && 0 < n <= |es|
    requires es[0].sn <= sn && SkipKey(es[1..], es[0].key) == es[n..]
    requires forall i :: 0 <= i < n ==> es[i].key == es[0].key
    requires n < |es| ==> es[n].key != es[0].key
    ensures forall key, value :: Row(key, value) in Collapse(es, sn) <==> View(SetOf(es), key, sn) == Some(value)
    ensures RowsAscend(Collapse(es, sn))
    ensures forall r :: r in Collapse(es, sn) ==> exists x :: x in es && x.key == r.key
    decreases |es|, 0
  {
    hide View, Less, Before, IsNewest;
    var key0, rest := es[0].key, es[n..];
    AscendingTail(es, n);
    CollapseIsView(rest, sn);
    SkippedKeyGone(es, n);
    FirstIsNewest(es, sn);
    ViewIs(SetOf(es), key0, sn, es[0]);
    LessIsOrder();
    forall key | key != key0 ensures View(SetOf(es), key, sn) == View(SetOf(rest), key, sn) {
      ViewSame(SetOf(es), SetOf(rest), key, sn);
    }
    assert NoHit(SetOf(rest), key0, sn);
    ViewNone(SetOf(rest), key0, sn);
  }

  // ------------------------------------------------------------------ DBIter

  class DBIter {
    const inner: MergingIterator
    const sn: nat
    var key: Bytes
    var value: Bytes
    var valid: bool

    constructor (merged: MergingIterator, visible: nat)
      ensures inner == merged && sn == visible && !valid
    {
      inner := merged;
      sn := visible;
      key, value, valid := [], [], false;
    }

    ghost function Stream(): seq<Entry>
      requires inner.Positioned()
      reads this, inner
    {
      Entries(inner.Rest())
    }

    /** The rows the cursor is on or has yet to reach. */
    ghost function Rows(): seq<Row>
      requires inner.Positioned()
      reads this, inner
    {
      if valid then [Row(key, value)] + Collapse(SkipKey(Stream(), key), sn) else []
    }

    method StepInner()
      requires inner.Valid() && inner.heap != []
      modifies inner
      ensures inner.Valid() && old(Stream()) != [] && Stream() == old(Stream())[1..]
    {
      hide Merge, AllLive, HeapFrom, LiveChildren;
      inner.Next();
    }

    method Peek() returns (e: Entry)
      requires inner.Valid() && inner.heap != []
      ensures Stream() != [] && e == Stream()[0]
    {
      hide Merge, AllLive, HeapFrom, LiveChildren;
      e := inner.Current();
    }

    lemma EndIsEmpty()
      requires inner.Valid()
      ensures inner.heap == [] <==> Stream() == []
    {
      hide Merge, AllLive, HeapFrom, LiveChildren;
      inner.RootHeads();
    }

    method SkipRestOfCurrentKey()
      requires inner.Valid()
      modifies inner
      ensures inner.Valid() && Stream() == SkipKey(old(Stream()), key)
    {
      hide Merge, AllLive, HeapFrom, LiveChildren, Entries;
      EndIsEmpty();
      while inner.heap != []
        invariant inner.Valid() && SkipKey(Stream(), key) == SkipKey(old(Stream()), key)
        invariant inner.heap == [] <==> Stream() == []
        decreases |Stream()|
      {
        var e := Peek();
        if e.key != key { return; }
        StepInner();
        EndIsEmpty();
      }
    }

    method AdvanceToNextLiveKey()
      requires inner.Valid()
      modifies this, inner
      ensures inner.Valid() && Rows() == Collapse(old(Stream()), sn)
    {
      hide Merge, AllLive, HeapFrom, LiveChildren, Entries;
      EndIsEmpty();
      while inner.heap != []
        invariant inner.Valid() && Collapse(Stream(), sn) == Collapse(old(Stream()), sn)
        invariant inner.heap == [] <==> Stream() == []
        decreases |Stream()|
      {
        var e := Peek();
        if e.sn > sn {
          StepInner();
        } else {
          key := e.key;
          if e.kind.Value? {
            value := e.value;
            valid := true;
            return;
          }
          SkipRestOfCurrentKey();
        }
        EndIsEmpty();
      }
      valid := false;
    }

    method SeekToFirst()
      requires inner.Positioned()
      modifies this, inner
      ensures inner.Valid() && Rows() == Collapse(Entries(Merge(inner.runs)), sn)
    {
      hide Merge, AllLive, HeapFrom, LiveChildren, Entries, Collapse;
      inner.SeekToFirst();
      AdvanceToNextLiveKey();
    }

    method Seek(target: Bytes)
      requires inner.Positioned()
      modifies this, inner
      ensures inner.Valid() && Rows() == Collapse(Entries(Merge(SeekRuns(inner.runs, LookupKey(target, sn)))), sn)
    {
      hide Merge, AllLive, HeapFrom, LiveChildren, Entries, Collapse, SeekRuns;
      inner.Seek(LookupKey(target, sn));
      AdvanceToNextLiveKey();
    }

    method Next()
      requires inner.Valid() && valid
      modifies this, inner
      ensures inner.Valid() && Rows() == old(Rows())[1..]
    {
      hide Merge, AllLive, HeapFrom, LiveChildren, Entries, Collapse;
      SkipRestOfCurrentKey();
      AdvanceToNextLiveKey();
    }

    lemma CurrentRow()
      requires inner.Positioned()
      ensures valid ==> Rows() != [] && Rows()[0] == Row(key, value)
      ensures !valid ==> Rows() == []
    {
      hide Collapse, Merge, Entries;
    }

    /** The rows from where the cursor is to the end. */
    method Drain() returns (rows: seq<Row>)
      requires inner.Valid()
      modifies this, inner
      ensures rows == old(Rows())
    {
      hide Merge, AllLive, HeapFrom, LiveChildren, RunsSorted, Suffixes, Rows;
      rows := [];
      CurrentRow();
      while valid
        invariant inner.Valid() && rows + Rows() == old(Rows())
        invariant valid ==> Rows() != [] && Rows()[0] == Row(key, value)
        invariant !valid ==> Rows() == []
        decreases |Rows()|
      {
        ghost var rest := Rows();
        var row := Row(key, value);
        Next();
        CurrentRow();
        assert rows + rest == rows + [row] + rest[1..];
        rows := rows + [row];
      }
    }
  }

  /** Everything a level still holds, file after file. */
  method LevelRun(files: seq<seq<Entry>>) returns (run: seq<Entry>)
    requires IsRun(files)
    ensures run == Concat(files)
  {
    hide IsRun, Concat, LevelIterator.Rest;
    var it := new LevelIterator(files);
    it.SeekToFirst();
    it.CurrentEntry();
    run := [];
    while it.index < |files|
      invariant it.files == files && it.Valid() && fresh(it) && run + it.Rest() == Concat(files)
      invariant it.index < |files| ==> it.Rest() != [] && it.Rest()[0] == files[it.index][it.offset]
      invariant it.index == |files| ==> it.Rest() == []
      decreases |it.Rest()|
    {
      var e := files[it.index][it.offset];
      ghost var rest := it.Rest();
      it.Next();
      it.CurrentEntry();
      assert run + rest == run + [e] + rest[1..];
      run := run + [e];
    }
  }

  // ------------------------------------------------- scans agree with reads

  ghost function UnionOf(runs: seq<seq<Entry>>): set<Entry> {
    set i: nat, x | i < |runs| && x in runs[i] :: x
  }

  lemma MergedStream(runs: seq<seq<Entry>>)
    requires RunsSorted(runs)
    ensures Ascending(Entries(Merge(runs)))
    ensures SetOf(Entries(Merge(runs))) == UnionOf(runs)
  {
    hide Before, Merge, RunsSorted;
    MergeSorted(runs);
    AheadIsOrder();
    var items := Merge(runs);
    forall i, j | 0 <= i < j < |items| ensures !Before(items[j].entry, items[i].entry) {
      assert Ahead(items[i], items[j]);
    }
    forall x ensures x in SetOf(Entries(items)) <==> x in UnionOf(runs) {
      if x in UnionOf(runs) {
        var i: nat :| i < |runs| && x in runs[i];
        MergeContents(runs, Item(x, i));
        var k :| 0 <= k < |items| && items[k] == Item(x, i);
        assert Entries(items)[k] == x;
      }
      if x in Entries(items) {
        var k :| 0 <= k < |items| && Entries(items)[k] == x;
        MergeContents(runs, items[k]);
      }
    }
  }

  /** A full scan yields, in key order, exactly the keys a point read at the same sequence
      finds, with the same values. */
  lemma ScanIsView(runs: seq<seq<Entry>>, sn: nat)
    requires RunsSorted(runs) && SeqUnique(UnionOf(runs))
    ensures var rows := Collapse(Entries(Merge(runs)), sn);
      && RowsAscend(rows)
      && forall key, value :: Row(key, value) in rows <==> View(UnionOf(runs), key, sn) == Some(value)
  {
    hide Merge, Collapse, RunsSorted, View, UnionOf, Ascending, SetOf;
    MergedStream(runs);
    CollapseIsView(Entries(Merge(runs)), sn);
  }

  lemma SeekRunsSorted(runs: seq<seq<Entry>>, target: Entry)
    requires RunsSorted(runs)
    ensures RunsSorted(SeekRuns(runs, target))
  {
    hide Before, SeekIndex;
  }

  /** Seeking every child to a lookup key keeps just what a scan from there may show. */
  lemma SeekKeeps(runs: seq<seq<Entry>>, key: Bytes, sn: nat, x: Entry)
    requires RunsSorted(runs)
    ensures x in UnionOf(SeekRuns(runs, LookupKey(key, sn))) <==> x in UnionOf(runs) && !Before(x, LookupKey(key, sn))
  {
    hide Before;
    var t := LookupKey(key, sn);
    if x in UnionOf(SeekRuns(runs, t)) {
      var i: nat :| i < |runs| && x in SeekRuns(runs, t)[i];
      SeekSplits(runs[i], t, x);
    }
    if x in UnionOf(runs) && !Before(x, t) {
      var i: nat :| i < |runs| && x in runs[i];
      SeekSplits(runs[i], t, x);
      assert x in SeekRuns(runs, t)[i];
    }
  }

  lemma SeekStops(run: seq<Entry>, t: Entry)
    requires Sorted(run)
    ensures forall i :: SeekIndex(run, t) <= i < |run| ==> !Before(run[i], t)
  {
    hide Before, SeekIndex;
    BeforeIsOrder();
    var p := SeekIndex(run, t);
    forall i | p <= i < |run| ensures !Before(run[i], t) { assert p < i ==> Before(run[p], run[i]); }
  }

  lemma SeekSplits(run: seq<Entry>, t: Entry, x: Entry)
    requires Sorted(run)
    ensures x in run[SeekIndex(run, t)..] <==> x in run && !Before(x, t)
  {
    hide Before, SeekIndex;
    SeekStops(run, t);
    hide Sorted;
    var p := SeekIndex(run, t);
    if x in run && !Before(x, t) {
      var k :| 0 <= k < |run| && run[k] == x;
      assert run[p..][k - p] == x;
    }
  }

  lemma SeekView(runs: seq<seq<Entry>>, target: Bytes, sn: nat, key: Bytes)
    requires RunsSorted(runs) && SeqUnique(UnionOf(runs))
    ensures SeqUnique(UnionOf(SeekRuns(runs, LookupKey(target, sn))))
    ensures View(UnionOf(SeekRuns(runs, LookupKey(target, sn))), key, sn)
         == if Leq(target, key) then View(UnionOf(runs), key, sn) else None
  {
    hide Less, View, UnionOf, SeekRuns, RunsSorted;
    LessIsOrder();
    var t := LookupKey(target, sn);
    var all, some := UnionOf(runs), UnionOf(SeekRuns(runs, t));
    forall x ensures x in some <==> x in all && !Before(x, t) { SeekKeeps(runs, target, sn, x); }
    if Leq(target, key) {
      ViewSame(some, all, key, sn);
    } else {
      ViewNone(some, key, sn);
    }
  }

  lemma {:induction false} RowsUnique(a: seq<Row>, b: seq<Row>)
    requires RowsAscend(a) && RowsAscend(b) && forall r :: r in a <==> r in b
    ensures a == b
    decreases |a|
  {
    hide Less;
    LessIsOrder();
    assert b != [] ==> b[0] in b;
    if a != [] {
      assert a[0] in b;
      var i :| 0 <= i < |b| && b[i] == a[0];
      assert b[0] in a;
      var j :| 0 <= j < |a| && a[j] == b[0];
      assert i == 0;
      forall r ensures r in a[1..] <==> r in b[1..] {
        if r in a[1..] { assert r in b; var k :| 0 <= k < |b| && b[k] == r; assert k != 0; assert b[1..][k - 1] == r; }
        if r in b[1..] { assert r in a; var k :| 0 <= k < |a| && a[k] == r; assert k != 0; assert a[1..][k - 1] == r; }
      }
      RowsUnique(a[1..], b[1..]);
      assert a == [a[0]] + a[1..] && b == [b[0]] + b[1..];
    }
  }

  /** A scan from a key on yields exactly the keys at or after it that a point read finds. */
  lemma SeekShows(runs: seq<seq<Entry>>, target: Bytes, sn: nat)
    requires RunsSorted(runs) && SeqUnique(UnionOf(runs))
    ensures var rows := Collapse(Entries(Merge(SeekRuns(runs, LookupKey(target, sn)))), sn);
      && RowsAscend(rows)
      && forall key, value :: Row(key, value) in rows <==>
        Leq(target, key) && View(UnionOf(runs), key, sn) == Some(value)
  {
    hide Merge, Collapse, RunsSorted, View, UnionOf, Less, SeekRuns, Entries;
    SeekRunsSorted(runs, LookupKey(target, sn));
    SeekView(runs, target, sn, []);
    ScanIsView(SeekRuns(runs, LookupKey(target, sn)), sn);
    forall key { SeekView(runs, target, sn, key); }
  }

  /** Seeking yields exactly the suffix of the full scan that starts at the target. */
  lemma SeekIsSuffix(runs: seq<seq<Entry>>, target: Bytes, sn: nat, n: nat)
    requires RunsSorted(runs) && SeqUnique(UnionOf(runs))
    requires var rows := Collapse(Entries(Merge(runs)), sn);
      && n <= |rows|
      && (forall i :: 0 <= i < n ==> Less(rows[i].key, target))
      && (n < |rows| ==> Leq(target, rows[n].key))
    ensures Collapse(Entries(Merge(SeekRuns(runs, LookupKey(target, sn)))), sn)
      == Collapse(Entries(Merge(runs)), sn)[n..]
  {
    hide Merge, Collapse, RunsSorted, View, UnionOf, Less, SeekRuns, Entries;
    LessIsOrder();
    var t := LookupKey(target, sn);
    var full, part := Collapse(Entries(Merge(runs)), sn), Collapse(Entries(Merge(SeekRuns(runs, t))), sn);
    SeekRunsSorted(runs, t);
    SeekView(runs, target, sn, []);
    ScanIsView(runs, sn);
    ScanIsView(SeekRuns(runs, t), sn);
    forall r ensures r in part <==> r in full[n..] {
      SeekView(runs, target, sn, r.key);
      assert r == Row(r.key, r.value);
      if r in full && Leq(target, r.key) {
        var k :| 0 <= k < |full| && full[k] == r;
        assert full[n..][k - n] == r;
      }
      if r in full[n..] {
        var k :| n <= k < |full| && full[k] == r;
        assert n < k ==> Less(full[n].key, full[k].key);
      }
    }
    RowsUnique(part, full[n..]);
  }
}
