/** The N-way merging cursor, after src/iterator.cpp: a binary min-heap of child indices,
    built with Floyd's construction and repaired by one sift-down per step. */
module MergingIterators {
  import opened ByteStrings
  import opened InternalKeys
  import opened MergeSpec

  /** Where a cursor over a sorted run lands when asked to seek. */
  function SeekIndex(run: seq<Entry>, target: Entry): (p: nat)
    ensures p <= |run|
    ensures forall i :: 0 <= i < p ==> Before(run[i], target)
    ensures p < |run| ==> !Before(run[p], target)
  {
    if run == [] || !Before(run[0], target) then 0 else 1 + SeekIndex(run[1..], target)
  }

  function Suffixes(runs: seq<seq<Entry>>, pos: seq<nat>): (r: seq<seq<Entry>>)
    requires |pos| == |runs| && forall i :: 0 <= i < |runs| ==> pos[i] <= |runs[i]|
    ensures |r| == |runs|
  {
    seq(|runs|, i requires 0 <= i < |runs| => runs[i][pos[i]..])
  }

  // -------------------------------------------------------------------- heap

  /** Child `a` must come out no later than child `b`. */
  ghost predicate NotAfter(runs: seq<seq<Entry>>, a: nat, b: nat) {
    Live(runs, a) && Live(runs, b) && (a == b || Ahead(Head(runs, a), Head(runs, b)))
  }

  lemma NotAfterIsOrder(runs: seq<seq<Entry>>)
    ensures forall a, b, c :: NotAfter(runs, a, b) && NotAfter(runs, b, c) ==> NotAfter(runs, a, c)
    ensures forall a, b :: Live(runs, a) && Live(runs, b) ==> NotAfter(runs, a, b) || NotAfter(runs, b, a)
    ensures forall a, b :: NotAfter(runs, a, b) && NotAfter(runs, b, a) ==> a == b
    ensures forall a :: Live(runs, a) ==> NotAfter(runs, a, a)
  {
    hide Ahead;
    AheadIsOrder();
  }

  function Parent(j: nat): nat
    requires j > 0
  {
    (j - 1) / 2
  }

  ghost predicate AllLive(runs: seq<seq<Entry>>, h: seq<nat>) {
    forall i :: 0 <= i < |h| ==> Live(runs, h[i])
  }

  /** Heap order at every slot whose parent is `lo` or later, other than children of `hole`. */
  ghost predicate HeapFrom(runs: seq<seq<Entry>>, h: seq<nat>, lo: int, hole: int) {
    forall j :: 0 < j < |h| && Parent(j) >= lo && Parent(j) != hole ==> NotAfter(runs, h[Parent(j)], h[j])
  }

  /** The slot above `hole` is already good enough for the children of `hole`. */
  ghost predicate Bridged(runs: seq<seq<Entry>>, h: seq<nat>, lo: int, hole: int) {
    forall j :: 0 < j < |h| && Parent(j) == hole && 0 < hole && Parent(hole) >= lo ==>
      NotAfter(runs, h[Parent(hole)], h[j])
  }

  lemma SwapMultiset(h: seq<nat>, i: nat, j: nat)
    requires i < |h| && j < |h|
    ensures multiset(h[i := h[j]][j := h[i]]) == multiset(h)
  {
    assert multiset(h[i := h[j]]) == multiset(h) - multiset{h[i]} + multiset{h[j]};
  }

  /** One turn of the sift-down loop, seen as a swap. */
  lemma SiftStep(runs: seq<seq<Entry>>, h: seq<nat>, lo: nat, hole: nat, s: nat)
    requires AllLive(runs, h) && lo <= hole < |h| && 0 < s < |h| && Parent(s) == hole
    requires HeapFrom(runs, h, lo, hole) && Bridged(runs, h, lo, hole)
    requires NotAfter(runs, h[s], h[hole])
    requires forall j :: 0 < j < |h| && Parent(j) == hole ==> NotAfter(runs, h[s], h[j])
    ensures var g := h[hole := h[s]][s := h[hole]];
      AllLive(runs, g) && HeapFrom(runs, g, lo, s) && Bridged(runs, g, lo, s)
  {
    hide NotAfter;
    var g := h[hole := h[s]][s := h[hole]];
    forall j | 0 < j < |g| && Parent(j) >= lo && Parent(j) != s ensures NotAfter(runs, g[Parent(j)], g[j]) {
      if j == s { } else if Parent(j) == hole { } else if j == hole { assert Parent(s) == hole; } else { }
    }
    forall j | 0 < j < |g| && Parent(j) == s ensures NotAfter(runs, g[Parent(s)], g[j]) {
      assert Parent(j) >= lo && Parent(j) != hole;
      assert NotAfter(runs, h[Parent(j)], h[j]);
    }
  }

  /** Sifting `slot` down has come to slot `p`. */
  ghost predicate Sifting(runs: seq<seq<Entry>>, h: seq<nat>, slot: nat, lo: nat, p: nat) {
    && lo <= p < |h| && AllLive(runs, h) && AllLive(runs, h[p := slot])
    && HeapFrom(runs, h[p := slot], lo, p) && Bridged(runs, h[p := slot], lo, p)
  }

  lemma SiftingLive(runs: seq<seq<Entry>>, h: seq<nat>, slot: nat, lo: nat, p: nat)
    requires Sifting(runs, h, slot, lo, p)
    ensures AllLive(runs, h)
  {
  }

  lemma SlotLive(runs: seq<seq<Entry>>, h: seq<nat>, slot: nat, lo: nat, p: nat, s: nat)
    requires Sifting(runs, h, slot, lo, p) && s < |h|
    ensures Live(runs, slot) && Live(runs, h[s])
  {
    hide HeapFrom, Bridged;
    assert h[p := slot][p] == slot;
  }

  /** Moving a child up and the slot into its place is a swap. */
  lemma MoveIsSwap(h: seq<nat>, slot: nat, p: nat, s: nat)
    requires p < s < |h|
    ensures var v := h[p := slot]; v[p := v[s]][s := v[p]] == h[p := h[s]][s := slot]
  {
  }

  lemma MovedLive(runs: seq<seq<Entry>>, h: seq<nat>, p: nat, s: nat)
    requires AllLive(runs, h) && p < |h| && s < |h|
    ensures AllLive(runs, h[p := h[s]])
  {
  }

  lemma SiftMove(runs: seq<seq<Entry>>, h: seq<nat>, slot: nat, lo: nat, p: nat, s: nat)
    requires Sifting(runs, h, slot, lo, p) && p < s < |h| && Parent(s) == p && !NotAfter(runs, slot, h[s])
    requires forall j :: 0 < j < |h| && Parent(j) == p ==> NotAfter(runs, h[s], h[j])
    ensures Sifting(runs, h[p := h[s]], slot, lo, s)
    ensures multiset(h[p := h[s]][s := slot]) == multiset(h[p := slot])
  {
    hide NotAfter, HeapFrom, Bridged, AllLive;
    var v := h[p := slot];
    SlotLive(runs, h, slot, lo, p, s);
    OneWay(runs, slot, h[s]);
    SiftStep(runs, v, lo, p, s);
    SwapMultiset(v, p, s);
    MoveIsSwap(h, slot, p, s);
    MovedLive(runs, h, p, s);
  }

  lemma SiftStop(runs: seq<seq<Entry>>, h: seq<nat>, slot: nat, lo: nat, p: nat, s: nat)
    requires Sifting(runs, h, slot, lo, p) && p < s < |h| && NotAfter(runs, slot, h[s])
    requires forall j :: 0 < j < |h| && Parent(j) == p ==> NotAfter(runs, h[s], h[j])
    ensures AllLive(runs, h[p := slot]) && HeapFrom(runs, h[p := slot], lo, -1)
  {
    hide NotAfter, HeapFrom, Bridged;
    var v := h[p := slot];
    assert forall j :: 0 < j < |h| && Parent(j) == p ==> v[j] == h[j];
    ChildrenFollow(runs, v, p, s);
    HoleFilled(runs, v, lo, p);
  }

  /** A slot without children needs no more sifting. */
  lemma SiftEnd(runs: seq<seq<Entry>>, h: seq<nat>, slot: nat, lo: nat, p: nat)
    requires Sifting(runs, h, slot, lo, p) && 2 * p + 1 >= |h|
    ensures AllLive(runs, h[p := slot]) && HeapFrom(runs, h[p := slot], lo, -1)
  {
    hide NotAfter, HeapFrom, Bridged;
    HoleFilled(runs, h[p := slot], lo, p);
  }

  lemma {:induction false} RootIsMin(runs: seq<seq<Entry>>, h: seq<nat>, j: nat)
    requires j < |h| && AllLive(runs, h) && HeapFrom(runs, h, 0, -1)
    ensures NotAfter(runs, h[0], h[j])
    decreases j
  {
    hide NotAfter;
    NotAfterIsOrder(runs);
    if j > 0 { RootIsMin(runs, h, Parent(j)); }
  }

  lemma TieIsSameKey(a: Entry, b: Entry)
    ensures SameKey(a, b) <==> !Before(a, b) && !Before(b, a)
  {
    hide Less;
    LessIsOrder();
  }

  // ------------------------------------------------------------------ cursor

  class MergingIterator {
    const runs: seq<seq<Entry>>
    var pos: seq<nat>
    var heap: seq<nat>

    constructor (children: seq<seq<Entry>>)
      requires RunsSorted(children)
      ensures runs == children && Positioned() && heap == []
    {
      runs := children;
      pos := seq(|children|, i => 0);
      heap := [];
    }

    /** Child cursors lie within their runs. */
    ghost predicate Positioned()
      reads this
    {
      RunsSorted(runs) && |pos| == |runs| && forall i :: 0 <= i < |runs| ==> pos[i] <= |runs[i]|
    }

    /** What the children still hold. */
    ghost function Remaining(): seq<seq<Entry>>
      requires Positioned()
      reads this
    {
      Suffixes(runs, pos)
    }

    /** The heap holds exactly the live children, once each, in heap order. */
    ghost predicate Valid()
      reads this
    {
      && Positioned()
      && AllLive(Remaining(), heap) && HeapFrom(Remaining(), heap, 0, -1)
      && multiset(heap) == LiveChildren(Remaining(), |runs|)
    }

    /** Everything the cursor has yet to yield, in order. */
    ghost function Rest(): seq<Item>
      requires Positioned()
      reads this
    {
      Merge(Remaining())
    }

    /** The source's Greater(a, b). */
    predicate Greater(a: nat, b: nat)
      requires Positioned() && Live(Remaining(), a) && Live(Remaining(), b)
      reads this
    {
      var ka, kb := runs[a][pos[a]], runs[b][pos[b]];
      Before(kb, ka) || (!Before(ka, kb) && a > b)
    }

    lemma GreaterIs(a: nat, b: nat)
      requires Positioned() && Live(Remaining(), a) && Live(Remaining(), b)
      ensures Greater(a, b) <==> !NotAfter(Remaining(), a, b)
    {
      hide Before, SameKey;
      BeforeIsOrder();
      SameKeyBefore();
      TieIsSameKey(runs[a][pos[a]], runs[b][pos[b]]);
      assert Head(Remaining(), a).entry == runs[a][pos[a]];
      assert Head(Remaining(), b).entry == runs[b][pos[b]];
    }

    /** The child of slot `p` that comes first. */
    method SmallerChild(p: nat) returns (s: nat)
      requires Positioned() && AllLive(Remaining(), heap) && 2 * p + 1 < |heap|
      ensures p < s < |heap| && Parent(s) == p
      ensures forall j :: 0 < j < |heap| && Parent(j) == p ==> NotAfter(Remaining(), heap[s], heap[j])
    {
      hide NotAfter, Greater;
      NotAfterIsOrder(Remaining());
      var left := 2 * p + 1;
      var right := left + 1;
      s := left;
      if right < |heap| {
        GreaterIs(heap[left], heap[right]);
        if Greater(heap[left], heap[right]) { s := right; }
      }
      assert forall j :: 0 < j < |heap| && Parent(j) == p ==> j == left || j == right;
    }

    method SiftDown(start: nat)
      requires Positioned() && start < |heap|
      requires AllLive(Remaining(), heap) && HeapFrom(Remaining(), heap, start + 1, -1)
      modifies this`heap
      ensures |heap| == old(|heap|) && AllLive(Remaining(), heap) && HeapFrom(Remaining(), heap, start, -1)
      ensures multiset(heap) == old(multiset(heap))
    {
      hide NotAfter, Greater, Suffixes, HeapFrom, Bridged, AllLive, Parent;
      var slot := heap[start];
      var p := start;
      ghost var rem := Remaining();
      assert heap[p := slot] == heap;
      HoleOpened(rem, heap, start);
      while 2 * p + 1 < |heap|
        invariant Positioned() && Remaining() == rem && |heap| == old(|heap|) && start <= p < |heap|
        invariant Sifting(rem, heap, slot, start, p) && multiset(heap[p := slot]) == old(multiset(heap))
        decreases |heap| - p
      {
        SiftingLive(rem, heap, slot, start, p);
        var smallest := SmallerChild(p);
        SlotLive(rem, heap, slot, start, p, smallest);
        GreaterIs(slot, heap[smallest]);
        if !Greater(slot, heap[smallest]) {
          SiftStop(rem, heap, slot, start, p, smallest);
          heap := heap[p := slot];
          return;
        }
        SiftMove(rem, heap, slot, start, p, smallest);
        heap := heap[p := heap[smallest]];
        p := smallest;
      }
      SiftEnd(rem, heap, slot, start, p);
      heap := heap[p := slot];
    }

    method BuildHeap()
      requires Positioned()
      modifies this`heap
      ensures Valid()
    {
      hide NotAfter, HeapFrom, Suffixes, LiveChildren;
      heap := [];
      LiveChildrenNone(Remaining());
      for i := 0 to |runs|
        invariant Positioned() && AllLive(Remaining(), heap)
        invariant multiset(heap) == LiveChildren(Remaining(), i)
      {
        LiveChildrenNext(Remaining(), i);
        SuffixLive(runs, pos, i);
        if pos[i] < |runs[i]| { heap := heap + [i]; }
      }
      HeapLeaves(Remaining(), heap);
      var i := |heap| / 2;
      while i > 0
        invariant Positioned() && 0 <= i <= |heap| && AllLive(Remaining(), heap) && HeapFrom(Remaining(), heap, i, -1)
        invariant multiset(heap) == LiveChildren(Remaining(), |runs|)
      {
        i := i - 1;
        SiftDown(i);
      }
    }

    method SeekToFirst()
      requires Positioned()
      modifies this
      ensures Valid() && Rest() == Merge(runs)
    {
      pos := seq(|runs|, i => 0);
      assert Remaining() == runs;
      BuildHeap();
    }

    /** Every child moves to its first entry at or after `target`. */
    method Seek(target: Entry)
      requires Positioned()
      modifies this
      ensures Valid() && Rest() == Merge(SeekRuns(runs, target))
    {
      pos := seq(|runs|, i requires 0 <= i < |runs| => SeekIndex(runs[i], target));
      assert Remaining() == SeekRuns(runs, target);
      BuildHeap();
    }

    predicate AtEnd()
      reads this
    {
      heap == []
    }

    lemma RootHeads()
      requires Valid()
      ensures heap == [] <==> Rest() == []
      ensures heap != [] ==> Live(Remaining(), heap[0])
      ensures heap != [] ==> Rest() == [Head(Remaining(), heap[0])] + Merge(Advance(Remaining(), heap[0]))
    {
      hide NotAfter, HeapFrom, Suffixes, LiveChildren;
      var rem := Remaining();
      if heap != [] {
        forall d | Live(rem, d) ensures NotAfter(rem, heap[0], d) {
          LiveChildrenCount(rem, |runs|, d);
          var j :| 0 <= j < |heap| && heap[j] == d;
          RootIsMin(rem, heap, j);
        }
        MinFromRoot(rem, heap[0]);
        MinUnique(rem, heap[0], MinChild(rem));
      } else {
        forall d ensures !Live(rem, d) {
          if Live(rem, d) { LiveChildrenCount(rem, |runs|, d); }
        }
      }
    }

    method Current() returns (e: Entry)
      requires Valid() && heap != []
      ensures Rest() != [] && e == Rest()[0].entry
    {
      RootHeads();
      e := runs[heap[0]][pos[heap[0]]];
    }

    /** Exhausted root: pull the last slot into it and shrink. */
    method DropRoot()
      requires Positioned() && heap != []
      requires forall j :: 0 < j < |heap| ==> Live(Remaining(), heap[j])
      requires HeapFrom(Remaining(), heap[0 := heap[|heap| - 1]][..|heap| - 1], 1, -1)
      requires multiset(heap) - multiset{heap[0]} == LiveChildren(Remaining(), |runs|)
      modifies this`heap
      ensures Valid()
    {
      hide NotAfter, HeapFrom, Suffixes, LiveChildren, Merge, AllLive;
      RemoveRoot(heap);
      OthersLive(Remaining(), heap);
      heap := heap[0 := heap[|heap| - 1]][..|heap| - 1];
      HeapLeaves(Remaining(), heap);
      if heap != [] { SiftDown(0); }
    }

    /** Stepping drops exactly the first of what was left. */
    method Next()
      requires Valid() && heap != []
      modifies this
      ensures Valid() && old(Rest()) != [] && Rest() == old(Rest())[1..]
    {
      hide NotAfter, HeapFrom, Suffixes, LiveChildren, Merge, Advance, RunsSorted;
      RootHeads();
      var top := heap[0];
      SuffixAdvance(runs, pos, top);
      HeapAfterAdvance(Remaining(), heap, |runs|);
      LiveChildrenAdvance(Remaining(), |runs|, top);
      pos := pos[top := pos[top] + 1];
      SuffixLive(runs, pos, top);
      if pos[top] < |runs[top]| {
        SiftDown(0);
      } else {
        DropRoot();
      }
    }
  }

  ghost function SeekRuns(runs: seq<seq<Entry>>, target: Entry): (r: seq<seq<Entry>>)
    ensures |r| == |runs|
  {
    seq(|runs|, i requires 0 <= i < |runs| => runs[i][SeekIndex(runs[i], target)..])
  }

  lemma SuffixLive(runs: seq<seq<Entry>>, pos: seq<nat>, i: nat)
    requires |pos| == |runs| && (forall j :: 0 <= j < |runs| ==> pos[j] <= |runs[j]|) && i < |runs|
    ensures Live(Suffixes(runs, pos), i) <==> pos[i] < |runs[i]|
  {
  }

  lemma SuffixAdvance(runs: seq<seq<Entry>>, pos: seq<nat>, i: nat)
    requires |pos| == |runs| && (forall j :: 0 <= j < |runs| ==> pos[j] <= |runs[j]|)
    requires Live(Suffixes(runs, pos), i)
    ensures pos[i] < |runs[i]| && Suffixes(runs, pos[i := pos[i] + 1]) == Advance(Suffixes(runs, pos), i)
  {
  }

  lemma MinFromRoot(runs: seq<seq<Entry>>, c: nat)
    requires Live(runs, c) && forall d :: Live(runs, d) ==> NotAfter(runs, c, d)
    ensures IsMin(runs, c)
  {
  }

  lemma LiveChildrenNone(runs: seq<seq<Entry>>)
    ensures LiveChildren(runs, 0) == multiset{}
  {
  }

  lemma LiveChildrenNext(runs: seq<seq<Entry>>, n: nat)
    ensures LiveChildren(runs, n + 1) == LiveChildren(runs, n) + (if Live(runs, n) then multiset{n} else multiset{})
  {
  }

  lemma {:induction false} LiveChildrenCount(runs: seq<seq<Entry>>, n: nat, c: nat)
    ensures LiveChildren(runs, n)[c] == if c < n && Live(runs, c) then 1 else 0
    decreases n
  {
    if n > 0 { LiveChildrenCount(runs, n - 1, c); }
  }

  lemma LiveChildrenAdvance(runs: seq<seq<Entry>>, n: nat, c: nat)
    requires Live(runs, c)
    ensures LiveChildren(Advance(runs, c), n)
         == if Live(Advance(runs, c), c) then LiveChildren(runs, n) else LiveChildren(runs, n) - multiset{c}
  {
    hide LiveChildren;
    var was, now := LiveChildren(runs, n), LiveChildren(Advance(runs, c), n);
    forall d: nat ensures now[d] == if c == d && !Live(Advance(runs, c), c) then 0 else was[d] {
      LiveChildrenCount(runs, n, d);
      LiveChildrenCount(Advance(runs, c), n, d);
    }
    LiveChildrenCount(runs, n, c);
    if Live(Advance(runs, c), c) { assert now == was; } else { assert now == was - multiset{c}; }
  }

  lemma HeapLeaves(runs: seq<seq<Entry>>, h: seq<nat>)
    ensures HeapFrom(runs, h, |h| / 2, -1)
  {
  }

  lemma LastForFirst(first: nat, mid: seq<nat>, last: nat)
    ensures multiset([last] + mid) == multiset([first] + mid + [last]) - multiset{first}
  {
  }

  lemma RootGone(h: seq<nat>)
    requires |h| > 1
    ensures h == [h[0]] + h[1..|h| - 1] + [h[|h| - 1]]
    ensures h[0 := h[|h| - 1]][..|h| - 1] == [h[|h| - 1]] + h[1..|h| - 1]
  {
  }

  lemma RemoveRoot(h: seq<nat>)
    requires h != []
    ensures multiset(h[0 := h[|h| - 1]][..|h| - 1]) == multiset(h) - multiset{h[0]}
  {
    if |h| == 1 {
      assert h == [h[0]];
    } else {
      RootGone(h);
      LastForFirst(h[0], h[1..|h| - 1], h[|h| - 1]);
    }
  }

  lemma OthersLive(runs: seq<seq<Entry>>, h: seq<nat>)
    requires h != [] && forall j :: 0 < j < |h| ==> Live(runs, h[j])
    ensures AllLive(runs, h[0 := h[|h| - 1]][..|h| - 1])
  {
  }

  lemma RootOnce(h: seq<nat>, j: nat)
    requires 0 < j < |h| && multiset(h)[h[0]] <= 1
    ensures h[j] != h[0]
  {
    assert h == [h[0]] + h[1..];
    assert h[j] in h[1..];
  }

  /** Below the root, advancing the root's child disturbs nothing. */
  lemma HeapAfterAdvance(runs: seq<seq<Entry>>, h: seq<nat>, n: nat)
    requires h != [] && AllLive(runs, h) && HeapFrom(runs, h, 0, -1) && multiset(h) == LiveChildren(runs, n)
    ensures var next := Advance(runs, h[0]);
      && (forall j :: 0 < j < |h| ==> Live(next, h[j]))
      && HeapFrom(next, h, 1, -1)
      && HeapFrom(next, h[0 := h[|h| - 1]][..|h| - 1], 1, -1)
  {
    hide LiveChildren;
    forall j | 0 < j < |h| ensures h[j] != h[0] {
      LiveChildrenCount(runs, n, h[0]);
      RootOnce(h, j);
    }
  }

  lemma HoleOpened(runs: seq<seq<Entry>>, h: seq<nat>, start: nat)
    requires HeapFrom(runs, h, start + 1, -1)
    ensures HeapFrom(runs, h, start, start) && Bridged(runs, h, start, start)
  {
    hide NotAfter;
  }

  lemma OneWay(runs: seq<seq<Entry>>, a: nat, b: nat)
    requires Live(runs, a) && Live(runs, b) && !NotAfter(runs, a, b)
    ensures NotAfter(runs, b, a)
  {
    NotAfterIsOrder(runs);
  }

  lemma ChildrenFollow(runs: seq<seq<Entry>>, h: seq<nat>, p: nat, s: nat)
    requires p < |h| && s < |h| && NotAfter(runs, h[p], h[s])
    requires forall j :: 0 < j < |h| && Parent(j) == p ==> NotAfter(runs, h[s], h[j])
    ensures forall j :: 0 < j < |h| && Parent(j) == p ==> NotAfter(runs, h[p], h[j])
  {
    hide NotAfter;
    NotAfterIsOrder(runs);
  }

  lemma HoleFilled(runs: seq<seq<Entry>>, h: seq<nat>, lo: nat, p: nat)
    requires HeapFrom(runs, h, lo, p) && forall j :: 0 < j < |h| && Parent(j) == p ==> NotAfter(runs, h[p], h[j])
    ensures HeapFrom(runs, h, lo, -1)
  {
    hide NotAfter;
  }

  /** The live children among the first `n`. */
  ghost function LiveChildren(runs: seq<seq<Entry>>, n: nat): multiset<nat> {
    if n == 0 then multiset{}
    else if Live(runs, n - 1) then LiveChildren(runs, n - 1) + multiset{n - 1}
    else LiveChildren(runs, n - 1)
  }
}
