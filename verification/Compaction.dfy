/** Collapsing versions, after the flush and compaction loops of src/db.cpp.

    Both loops walk an ascending stream and drop a version once a newer one is visible to
    every live snapshot; compaction into the bottom of the tree also drops tombstones, and
    cuts its output into files at user-key boundaries. */
module Compactions {
  import opened ByteStrings
  import opened InternalKeys
  import opened Views
  import opened MergeSpec
  import opened MergingIterators
  import opened Scans

  // ---------------------------------------------------------- specification

  /** The version before `es[i]` already serves everyone at or above `floor`. */
  predicate Hidden(es: seq<Entry>, i: nat, floor: nat)
    requires i < |es|
  {
    i > 0 && es[i - 1].key == es[i].key && es[i - 1].sn <= floor
  }

  predicate Kept(es: seq<Entry>, i: nat, floor: nat, bottom: bool)
    requires i < |es|
  {
    !Hidden(es, i, floor) && !(es[i].kind.Deletion? && bottom && es[i].sn <= floor)
  }

  /** What is left of the first `n` entries of a stream. */
  function Survivors(es: seq<Entry>, n: nat, floor: nat, bottom: bool): (r: seq<Entry>)
    requires n <= |es|
    ensures |r| <= n
  {
    if n == 0 then []
    else if Kept(es, n - 1, floor, bottom) then Survivors(es, n - 1, floor, bottom) + [es[n - 1]]
    else Survivors(es, n - 1, floor, bottom)
  }

  function AllSurvivors(es: seq<Entry>, floor: nat, bottom: bool): seq<Entry> {
    Survivors(es, |es|, floor, bottom)
  }

  lemma {:induction false} SurvivorsAre(es: seq<Entry>, n: nat, floor: nat, bottom: bool, x: Entry)
    requires n <= |es|
    ensures x in Survivors(es, n, floor, bottom) <==> exists i :: 0 <= i < n && es[i] == x && Kept(es, i, floor, bottom)
    decreases n
  {
    hide Kept;
    if n > 0 {
      SurvivorsAre(es, n - 1, floor, bottom, x);
      if x in Survivors(es, n, floor, bottom) {
        if x in Survivors(es, n - 1, floor, bottom) {
          var i :| 0 <= i < n - 1 && es[i] == x && Kept(es, i, floor, bottom);
        } else {
          assert es[n - 1] == x && Kept(es, n - 1, floor, bottom);
        }
      }
    }
  }

  /** An entry met twice in the stream is one every snapshot can already see. */
  ghost predicate RepeatsLow(es: seq<Entry>, floor: nat) {
    forall i :: 0 < i < |es| && SameKey(es[i - 1], es[i]) ==> es[i].sn <= floor
  }

  /** Between two versions of a key there are only versions of that key, in tag order. */
  lemma SameKeyBetween(es: seq<Entry>, i: nat, m: nat, j: nat)
    requires Ascending(es) && i <= m <= j < |es| && es[i].key == es[j].key
    ensures es[m].key == es[i].key && Tag(es[i]) >= Tag(es[m]) >= Tag(es[j])
  {
    hide Less;
    LessIsOrder();
    assert i < m ==> !Before(es[m], es[i]);
    assert m < j ==> !Before(es[j], es[m]);
  }

  lemma TagMonotone(a: Entry, b: Entry)
    requires Tag(a) >= Tag(b)
    ensures a.sn >= b.sn
  {
  }

  /** Two survivors are in strict order. */
  lemma KeptStrict(es: seq<Entry>, i: nat, j: nat, floor: nat, bottom: bool)
    requires Ascending(es) && RepeatsLow(es, floor) && i < j < |es| && Kept(es, j, floor, bottom)
    ensures Before(es[i], es[j])
  {
    hide Less;
    LessIsOrder();
    assert !Before(es[j], es[i]);
    if es[i].key == es[j].key {
      SameKeyBetween(es, i, j - 1, j);
      TagMonotone(es[i], es[j - 1]);
    }
  }

  lemma {:induction false} SurvivorsSorted(es: seq<Entry>, n: nat, floor: nat, bottom: bool)
    requires Ascending(es) && RepeatsLow(es, floor) && n <= |es|
    ensures Sorted(Survivors(es, n, floor, bottom))
    decreases n
  {
    hide Before, Kept;
    if n > 0 {
      SurvivorsSorted(es, n - 1, floor, bottom);
      var rest := Survivors(es, n - 1, floor, bottom);
      if Kept(es, n - 1, floor, bottom) {
        forall k | 0 <= k < |rest| ensures Before(rest[k], es[n - 1]) {
          SurvivorsAre(es, n - 1, floor, bottom, rest[k]);
          var i :| 0 <= i < n - 1 && es[i] == rest[k] && Kept(es, i, floor, bottom);
          KeptStrict(es, i, n - 1, floor, bottom);
        }
      }
    }
  }

  // ------------------------------------------------- only droppable ones go

  lemma FirstCopy(es: seq<Entry>, x: Entry) returns (i: nat)
    requires x in es
    ensures i < |es| && es[i] == x && forall j :: 0 <= j < i ==> es[j] != x
  {
    i := 0;
    while es[i] != x
      invariant i < |es| && x in es[i..] && forall j :: 0 <= j < i ==> es[j] != x
      decreases |es| - i
    {
      i := i + 1;
    }
  }

  /** Nothing outside the input is older than what the input holds of the same key. */
  ghost predicate NothingBelow(input: set<Entry>, rest: set<Entry>) {
    forall x, y :: x in input && y in rest && x.key == y.key ==> y.sn >= x.sn
  }

  lemma HiddenIsShadowed(es: seq<Entry>, i: nat, floor: nat)
    requires Ascending(es) && SeqUnique(SetOf(es)) && i < |es| && Hidden(es, i, floor) && es[i - 1] != es[i]
    ensures Shadowed(es[i], SetOf(es), floor)
  {
    SameKeyBetween(es, i - 1, i, i);
    TagMonotone(es[i - 1], es[i]);
    assert es[i - 1] in SetOf(es) && es[i] in SetOf(es);
  }

  /** A version kept at `i` has no newer one that everyone at or above `floor` can see. */
  lemma KeptIsLatest(es: seq<Entry>, i: nat, j: nat, floor: nat)
    requires Ascending(es) && i < |es| && j < |es| && !Hidden(es, i, floor)
    requires es[j].key == es[i].key && es[i].sn < es[j].sn
    ensures es[j].sn > floor
  {
    if i < j {
      SameKeyBetween(es, i, j, j);
      TagMonotone(es[i], es[j]);
    } else {
      SameKeyBetween(es, j, i - 1, i);
      TagMonotone(es[j], es[i - 1]);
    }
  }

  /** What survives, said of the stream as a set: every version but those with a newer one at or
      below the smallest snapshot and, at the bottom of the tree, tombstones at or below it. */
  lemma SurvivorsExact(es: seq<Entry>, floor: nat, bottom: bool, x: Entry)
    requires Ascending(es) && SeqUnique(SetOf(es))
    ensures x in AllSurvivors(es, floor, bottom)
       <==> x in es && !(exists y :: y in es && y.key == x.key && x.sn < y.sn <= floor)
            && !(bottom && x.kind.Deletion? && x.sn <= floor)
  {
    hide Before;
    SurvivorsAre(es, |es|, floor, bottom, x);
    if i :| 0 <= i < |es| && es[i] == x && Kept(es, i, floor, bottom) {
      forall y | y in es && y.key == x.key && x.sn < y.sn ensures y.sn > floor {
        var j :| 0 <= j < |es| && es[j] == y;
        KeptIsLatest(es, i, j, floor);
      }
    } else if x in es {
      var i := FirstCopy(es, x);
      assert !Kept(es, i, floor, bottom);
      if Hidden(es, i, floor) { HiddenIsShadowed(es, i, floor); }
    }
  }

  /** Versions below a dropped tombstone are dropped with it. */
  lemma TombstoneTakesRest(es: seq<Entry>, i: nat, j: nat, floor: nat, bottom: bool)
    requires Ascending(es) && i < |es| && j < |es| && es[i].key == es[j].key && es[i].sn <= floor
    requires Kept(es, j, floor, bottom)
    ensures es[j].sn >= es[i].sn
  {
    if j < i {
      SameKeyBetween(es, j, i, i);
      TagMonotone(es[j], es[i]);
    } else if i < j {
      SameKeyBetween(es, i, j - 1, j);
      TagMonotone(es[i], es[j - 1]);
    }
  }

  lemma DroppedIsDroppable(es: seq<Entry>, floor: nat, bottom: bool, rest: set<Entry>, x: Entry)
    requires Ascending(es) && SeqUnique(SetOf(es))
    requires bottom ==> NothingBelow(SetOf(es), rest)
    requires x in es && x !in AllSurvivors(es, floor, bottom)
    ensures Droppable(x, SetOf(es), rest + SetOf(AllSurvivors(es, floor, bottom)), floor)
  {
    hide Before;
    var i := FirstCopy(es, x);
    SurvivorsAre(es, |es|, floor, bottom, x);
    assert !Kept(es, i, floor, bottom);
    if Hidden(es, i, floor) {
      HiddenIsShadowed(es, i, floor);
    } else {
      forall y | y in rest + SetOf(AllSurvivors(es, floor, bottom)) && y.key == x.key ensures y.sn >= x.sn {
        if y in AllSurvivors(es, floor, bottom) {
          SurvivorsAre(es, |es|, floor, bottom, y);
          var j :| 0 <= j < |es| && es[j] == y && Kept(es, j, floor, bottom);
          TombstoneTakesRest(es, i, j, floor, bottom);
        }
      }
    }
  }

  /** Replacing a stream by its survivors changes no read at or above the smallest snapshot. */
  lemma CollapseKeepsView(es: seq<Entry>, floor: nat, bottom: bool, rest: set<Entry>, key: Bytes, sn: nat)
    requires Ascending(es) && SeqUnique(rest + SetOf(es)) && floor <= sn
    requires bottom ==> NothingBelow(SetOf(es), rest)
    ensures View(rest + SetOf(AllSurvivors(es, floor, bottom)), key, sn) == View(rest + SetOf(es), key, sn)
  {
    hide View, Droppable, Ascending, AllSurvivors;
    var input, output := SetOf(es), SetOf(AllSurvivors(es, floor, bottom));
    assert SeqUnique(input);
    forall x | x in output ensures x in input { SurvivorsSubset(es, floor, bottom, x); }
    forall x | x in input && x !in output ensures Droppable(x, input, rest + output, floor) {
      DroppedIsDroppable(es, floor, bottom, rest, x);
    }
    RewriteKeepsView(rest, input, output, floor, key, sn);
  }

  lemma SurvivorsSubset(es: seq<Entry>, floor: nat, bottom: bool, x: Entry)
    requires x in AllSurvivors(es, floor, bottom)
    ensures x in es
  {
    SurvivorsAre(es, |es|, floor, bottom, x);
  }

  // -------------------------------------------------------------- the loops

  /** The flush loop: the memtable's entries, collapsed. */
  method CollapseMemTable(es: seq<Entry>, floor: nat) returns (out: seq<Entry>, dropped: nat)
    requires floor < MAX_SEQUENCE
    ensures out == AllSurvivors(es, floor, false) && dropped == |es| - |out|
  {
    out, dropped := [], 0;
    var lastKey: Bytes, haveLast, lastSn := [], false, MAX_SEQUENCE;
    for i := 0 to |es|
      invariant haveLast <==> i > 0
      invariant i > 0 ==> lastKey == es[i - 1].key && lastSn == es[i - 1].sn
      invariant out == Survivors(es, i, floor, false) && dropped == i - |out|
    {
      var e := es[i];
      if !haveLast || e.key != lastKey {
        lastKey, haveLast, lastSn := e.key, true, MAX_SEQUENCE;
      }
      var hidden := lastSn <= floor;
      lastSn := e.sn;
      if hidden { dropped := dropped + 1; } else { out := out + [e]; }
    }
  }

  /** `outputs` is `es` cut into non-empty files, only ever between two user keys. */
  ghost predicate IsCut(outputs: seq<seq<Entry>>, es: seq<Entry>) {
    && Concat(outputs) == es
    && (forall k :: 0 <= k < |outputs| ==> outputs[k] != [])
    && (forall k :: 0 < k < |outputs| ==> Last(outputs[k - 1]).key != outputs[k][0].key)
  }

  lemma {:induction false} ConcatAppend(files: seq<seq<Entry>>, f: seq<Entry>)
    ensures Concat(files + [f]) == Concat(files) + f
    decreases |files|
  {
    if files == [] {
      assert [f][1..] == [];
    } else {
      assert (files + [f])[1..] == files[1..] + [f];
      ConcatAppend(files[1..], f);
    }
  }

  /** Closing the open output keeps the cut. */
  lemma CloseOutput(outputs: seq<seq<Entry>>, open: seq<Entry>, all: seq<Entry>)
    requires open != [] && Concat(outputs) + open == all && IsCut(outputs, Concat(outputs))
    requires outputs != [] ==> Last(LastFile(outputs)).key != open[0].key
    ensures IsCut(outputs + [open], all)
  {
    ConcatAppend(outputs, open);
  }

  function LastFile(files: seq<seq<Entry>>): (f: seq<Entry>)
    requires files != [] && forall k :: 0 <= k < |files| ==> files[k] != []
    ensures f != []
  {
    files[|files| - 1]
  }

  /** A survivor's user key differs from that of a later entry that starts a new key. */
  lemma NewKeyDiffers(es: seq<Entry>, i: nat, floor: nat, bottom: bool, x: Entry)
    requires Ascending(es) && 0 < i < |es| && es[i - 1].key != es[i].key && x in Survivors(es, i, floor, bottom)
    ensures x.key != es[i].key
  {
    SurvivorsAre(es, i, floor, bottom, x);
    var m :| 0 <= m < i && es[m] == x && Kept(es, m, floor, bottom);
    if x.key == es[i].key { SameKeyBetween(es, m, i - 1, i); }
  }

  /** No file goes on past a user-key boundary once it is full. */
  ghost predicate StopsWhenFull(f: seq<Entry>, full: seq<Entry> -> bool) {
    forall j :: 0 < j < |f| && f[j - 1].key != f[j].key ==> !full(f[..j])
  }

  /** Files are cut where they have to be, and only there: each but the last is full. */
  ghost predicate CutWhenFull(outputs: seq<seq<Entry>>, full: seq<Entry> -> bool) {
    && (forall k :: 0 <= k < |outputs| ==> StopsWhenFull(outputs[k], full))
    && (forall k :: 0 <= k < |outputs| - 1 ==> full(outputs[k]))
  }

  lemma StopsNext(f: seq<Entry>, e: Entry, full: seq<Entry> -> bool)
    requires StopsWhenFull(f, full) && (f != [] && Last(f).key != e.key ==> !full(f))
    ensures StopsWhenFull(f + [e], full)
  {
    forall j | 0 < j < |f + [e]| && (f + [e])[j - 1].key != (f + [e])[j].key ensures !full((f + [e])[..j]) {
      assert (f + [e])[..j] == f[..j];
      assert j == |f| ==> f[..j] == f;
    }
  }

  /** If a survivor has the same key as the entry before it, that one survives too. */
  lemma KeptFollowsKept(es: seq<Entry>, i: nat, floor: nat, bottom: bool)
    requires Ascending(es) && 0 < i < |es| && Kept(es, i, floor, bottom) && es[i - 1].key == es[i].key
    ensures Kept(es, i - 1, floor, bottom)
  {
    hide Before, Ascending;
    if i > 1 && es[i - 2].key == es[i - 1].key {
      SameKeyBetween(es, i - 2, i - 1, i - 1);
      TagMonotone(es[i - 2], es[i - 1]);
    }
  }

  lemma SameKeyContinues(es: seq<Entry>, i: nat, floor: nat, bottom: bool, outputs: seq<seq<Entry>>, open: seq<Entry>)
    requires Ascending(es) && 0 < i < |es| && Kept(es, i, floor, bottom) && es[i - 1].key == es[i].key
    requires open != [] && Concat(outputs) + open == Survivors(es, i, floor, bottom)
    ensures Last(open).key == es[i].key
  {
    hide Kept, Concat, Ascending;
    KeptFollowsKept(es, i, floor, bottom);
    var all := Survivors(es, i, floor, bottom);
    assert all[|all| - 1] == es[i - 1] && all[|all| - 1] == open[|open| - 1];
  }

  /** The compaction loop over a merging cursor. `full` stands for the builder having reached
      the target file size. */
  method WriteOutputs(merged: MergingIterator, floor: nat, bottom: bool, full: seq<Entry> -> bool)
    returns (outputs: seq<seq<Entry>>)
    requires merged.Positioned() && floor < MAX_SEQUENCE
    modifies merged
    ensures IsCut(outputs, AllSurvivors(Entries(Merge(merged.runs)), floor, bottom)) && CutWhenFull(outputs, full)
  {
    hide Merge, AllLive, HeapFrom, LiveChildren, Entries, Kept, Before, Ascending, RunsSorted, IsCut, Concat, SetOf,
      UnionOf, Suffixes, Survivors, StopsWhenFull, CutSoFar;
    ghost var es := Entries(Merge(merged.runs));
    MergedStream(merged.runs);
    merged.SeekToFirst();
    outputs := [];
    var open: seq<Entry> := [];
    NothingCut(full, es, floor, bottom);
    var lastKey: Bytes, haveLast, lastSn := [], false, MAX_SEQUENCE;
    ghost var i := 0;
    EndIsEmpty(merged);
    while merged.heap != []
      invariant merged.Valid() && 0 <= i <= |es| && Entries(merged.Rest()) == es[i..]
      invariant merged.heap == [] <==> i == |es|
      invariant haveLast <==> i > 0
      invariant i > 0 ==> lastKey == es[i - 1].key && lastSn == es[i - 1].sn
      invariant CutSoFar(outputs, open, es, i, floor, bottom, full)
      decreases |es| - i
    {
      var e := merged.Current();
      FirstEntry(merged.Rest());
      assert e == es[i];
      var isNewKey := !haveLast || e.key != lastKey;
      if isNewKey {
        lastKey, haveLast, lastSn := e.key, true, MAX_SEQUENCE;
      }
      var hidden := lastSn <= floor;
      lastSn := e.sn;
      KeptIs(es, i, floor, bottom);
      if !hidden && !(e.kind.Deletion? && bottom && e.sn <= floor) {
        KeepOne(outputs, open, es, i, floor, bottom, full);
        if open != [] && isNewKey && full(open) {
          outputs, open := outputs + [open], [];
          assert open + [e] == [e];
        }
        open := open + [e];
      } else {
        SkipOne(outputs, open, es, i, floor, bottom, full);
      }
      RestEntries(merged.Rest());
      merged.Next();
      i := i + 1;
      EndIsEmpty(merged);
    }
    CloseLast(outputs, open, es, floor, bottom, full);
    if open != [] { outputs := outputs + [open]; }
  }

  /** Where the loop stands after `i` entries of the stream. */
  ghost predicate CutSoFar(outputs: seq<seq<Entry>>, open: seq<Entry>, es: seq<Entry>, i: nat, floor: nat,
          bottom: bool, full: seq<Entry> -> bool)
  {
    && i <= |es| && Concat(outputs) + open == Survivors(es, i, floor, bottom)
    && IsCut(outputs, Concat(outputs)) && (forall k :: 0 <= k < |outputs| ==> outputs[k] != [])
    && (outputs != [] ==> open != [] && Last(LastFile(outputs)).key != open[0].key)
    && (forall k :: 0 <= k < |outputs| ==> StopsWhenFull(outputs[k], full) && full(outputs[k]))
    && StopsWhenFull(open, full)
  }

  lemma SkipOne(outputs: seq<seq<Entry>>, open: seq<Entry>, es: seq<Entry>, i: nat, floor: nat, bottom: bool,
          full: seq<Entry> -> bool)
    requires CutSoFar(outputs, open, es, i, floor, bottom, full) && i < |es| && !Kept(es, i, floor, bottom)
    ensures CutSoFar(outputs, open, es, i + 1, floor, bottom, full)
  {
    hide Kept, IsCut, Concat, StopsWhenFull;
  }

  /** One more survivor, after a cut if the open file is full and a new key starts. */
  lemma KeepOne(outputs: seq<seq<Entry>>, open: seq<Entry>, es: seq<Entry>, i: nat, floor: nat, bottom: bool,
          full: seq<Entry> -> bool)
    requires Ascending(es) && CutSoFar(outputs, open, es, i, floor, bottom, full) && i < |es|
    requires Kept(es, i, floor, bottom)
    ensures var isNewKey := i == 0 || es[i].key != es[i - 1].key;
      if open != [] && isNewKey && full(open) then CutSoFar(outputs + [open], [es[i]], es, i + 1, floor, bottom, full)
      else CutSoFar(outputs, open + [es[i]], es, i + 1, floor, bottom, full)
  {
    hide Kept, Ascending;
    var e, all := es[i], Survivors(es, i, floor, bottom);
    if open != [] && (i == 0 || e.key != es[i - 1].key) && full(open) {
      LastSurvives(outputs, open, all);
      CutAtNewKey(outputs, open, es, i, floor, bottom, full);
    } else {
      if open != [] && i > 0 && e.key == es[i - 1].key { SameKeyContinues(es, i, floor, bottom, outputs, open); }
      hide IsCut, Concat;
      StopsNext(open, e, full);
      assert Concat(outputs) + (open + [e]) == all + [e];
    }
  }

  lemma CutAtNewKey(outputs: seq<seq<Entry>>, open: seq<Entry>, es: seq<Entry>, i: nat, floor: nat, bottom: bool,
          full: seq<Entry> -> bool)
    requires Ascending(es) && CutSoFar(outputs, open, es, i, floor, bottom, full) && i < |es|
    requires Kept(es, i, floor, bottom)
    requires open != [] && full(open) && (i == 0 || es[i].key != es[i - 1].key)
    ensures CutSoFar(outputs + [open], [es[i]], es, i + 1, floor, bottom, full)
  {
    hide Kept, Ascending, StopsWhenFull, IsCut, Concat;
    var all := Survivors(es, i, floor, bottom);
    LastSurvives(outputs, open, all);
    assert i > 0 by { SurvivorsNone(es, floor, bottom); }
    NewKeyDiffers(es, i, floor, bottom, Last(open));
    CloseOutput(outputs, open, all);
    CutOf(outputs + [open], all);
    assert StopsWhenFull([es[i]], full) by { StopsOne(es[i], full); }
  }

  lemma SurvivorsNone(es: seq<Entry>, floor: nat, bottom: bool)
    ensures Survivors(es, 0, floor, bottom) == []
  {
  }

  lemma StopsOne(e: Entry, full: seq<Entry> -> bool)
    ensures StopsWhenFull([e], full)
  {
  }

  lemma CloseLast(outputs: seq<seq<Entry>>, open: seq<Entry>, es: seq<Entry>, floor: nat, bottom: bool,
          full: seq<Entry> -> bool)
    requires CutSoFar(outputs, open, es, |es|, floor, bottom, full)
    ensures var all := if open != [] then outputs + [open] else outputs;
      IsCut(all, AllSurvivors(es, floor, bottom)) && CutWhenFull(all, full)
  {
    hide IsCut, Concat, Survivors, StopsWhenFull;
    if open != [] {
      CloseOutput(outputs, open, AllSurvivors(es, floor, bottom));
    } else {
      NothingOpen(outputs, AllSurvivors(es, floor, bottom));
    }
  }

  lemma NothingOpen(outputs: seq<seq<Entry>>, all: seq<Entry>)
    requires outputs == [] && Concat(outputs) + [] == all
    ensures IsCut(outputs, all)
  {
  }

  lemma NothingCut(full: seq<Entry> -> bool, es: seq<Entry>, floor: nat, bottom: bool)
    ensures CutSoFar([], [], es, 0, floor, bottom, full)
  {
  }

  lemma CutOf(outputs: seq<seq<Entry>>, es: seq<Entry>)
    requires IsCut(outputs, es)
    ensures Concat(outputs) == es && forall k :: 0 <= k < |outputs| ==> outputs[k] != []
  {
  }

  lemma EndIsEmpty(merged: MergingIterator)
    requires merged.Valid()
    ensures merged.heap == [] <==> |Entries(merged.Rest())| == 0
  {
    hide Merge, AllLive, HeapFrom, LiveChildren;
    merged.RootHeads();
  }

  lemma FirstEntry(items: seq<Item>)
    requires items != []
    ensures items[0].entry == Entries(items)[0]
  {
  }

  lemma RestEntries(items: seq<Item>)
    requires items != []
    ensures Entries(items[1..]) == Entries(items)[1..]
  {
  }

  lemma KeptIs(es: seq<Entry>, i: nat, floor: nat, bottom: bool)
    requires i < |es|
    ensures Kept(es, i, floor, bottom) <==>
      !(i > 0 && es[i - 1].key == es[i].key && es[i - 1].sn <= floor)
        && !(es[i].kind.Deletion? && bottom && es[i].sn <= floor)
  {
  }

  lemma LastSurvives(outputs: seq<seq<Entry>>, open: seq<Entry>, all: seq<Entry>)
    requires open != [] && Concat(outputs) + open == all
    ensures Last(open) in all
  {
    assert all[|all| - 1] == Last(open);
  }
}
