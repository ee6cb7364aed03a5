/** What an N-way merge of sorted runs produces.

    A merged item remembers the child it came from. Items are ordered by internal key and,
    on an exact tie, by child, so that callers who pass children newest first get the newest
    source first. */
module MergeSpec {
  import opened ByteStrings
  import opened InternalKeys

  datatype Item = Item(entry: Entry, child: nat)

  predicate SameKey(a: Entry, b: Entry) {
    a.key == b.key && Tag(a) == Tag(b)
  }

  predicate Ahead(a: Item, b: Item) {
    Before(a.entry, b.entry) || (SameKey(a.entry, b.entry) && a.child < b.child)
  }

  /** Strictly ascending items; in particular, ties come in child order. */
  ghost predicate AheadSorted(items: seq<Item>) {
    forall i, j :: 0 <= i < j < |items| ==> Ahead(items[i], items[j])
  }

  lemma AheadIsOrder()
    ensures forall a, b, c :: Ahead(a, b) && Ahead(b, c) ==> Ahead(a, c)
    ensures forall a, b :: Ahead(a, b) ==> !Ahead(b, a)
    ensures forall a, b :: Ahead(a, b) || Ahead(b, a) || (SameKey(a.entry, b.entry) && a.child == b.child)
  {
    hide Before;
    BeforeIsOrder();
    SameKeyBefore();
  }

  lemma SameKeyBefore()
    ensures forall a, b, c :: SameKey(a, b) && Before(b, c) ==> Before(a, c)
    ensures forall a, b, c :: Before(a, b) && SameKey(b, c) ==> Before(a, c)
    ensures forall a, b :: SameKey(a, b) ==> !Before(a, b)
  {
    hide Less;
    LessIsOrder();
  }

  // ------------------------------------------------------------------- runs

  ghost predicate RunsSorted(runs: seq<seq<Entry>>) {
    forall i :: 0 <= i < |runs| ==> Sorted(runs[i])
  }

  predicate Live(runs: seq<seq<Entry>>, c: int) {
    0 <= c < |runs| && runs[c] != []
  }

  function Head(runs: seq<seq<Entry>>, c: int): Item
    requires Live(runs, c)
  {
    Item(runs[c][0], c)
  }

  /** The child a merge takes from next. */
  ghost predicate IsMin(runs: seq<seq<Entry>>, c: int) {
    Live(runs, c) && forall d :: Live(runs, d) && d != c ==> Ahead(Head(runs, c), Head(runs, d))
  }

  function Total(runs: seq<seq<Entry>>): nat {
    if runs == [] then 0 else |runs[0]| + Total(runs[1..])
  }

  lemma {:induction false} TotalUpdate(runs: seq<seq<Entry>>, c: nat, r: seq<Entry>)
    requires c < |runs|
    ensures Total(runs[c := r]) == Total(runs) - |runs[c]| + |r|
    decreases |runs|
  {
    if c > 0 {
      TotalUpdate(runs[1..], c - 1, r);
      assert runs[c := r][1..] == runs[1..][c - 1 := r];
    }
  }

  ghost predicate MinAmong(runs: seq<seq<Entry>>, n: int, c: int) {
    Live(runs, c) && c < n && forall d :: Live(runs, d) && d < n && d != c ==> Ahead(Head(runs, c), Head(runs, d))
  }

  lemma {:induction false} FindMin(runs: seq<seq<Entry>>, n: nat, w: int) returns (c: int)
    requires n <= |runs| && Live(runs, w) && w < n
    ensures MinAmong(runs, n, c)
    decreases n
  {
    hide Ahead;
    AheadIsOrder();
    if w == n - 1 {
      if v :| Live(runs, v) && v < n - 1 {
        c := FindMin(runs, n - 1, v);
        if Ahead(Head(runs, n - 1), Head(runs, c)) { c := n - 1; }
      } else {
        c := n - 1;
      }
    } else {
      c := FindMin(runs, n - 1, w);
      if Live(runs, n - 1) && Ahead(Head(runs, n - 1), Head(runs, c)) { c := n - 1; }
    }
  }

  ghost function MinChild(runs: seq<seq<Entry>>): (c: nat)
    requires exists c :: Live(runs, c)
    ensures IsMin(runs, c)
  {
    MinExists(runs);
    var c :| IsMin(runs, c);
    c
  }

  lemma MinExists(runs: seq<seq<Entry>>)
    requires exists c :: Live(runs, c)
    ensures exists c :: IsMin(runs, c)
  {
    hide Ahead;
    var w :| Live(runs, w);
    var c := FindMin(runs, |runs|, w);
    assert IsMin(runs, c);
  }

  lemma MinUnique(runs: seq<seq<Entry>>, c: nat, d: nat)
    requires IsMin(runs, c) && IsMin(runs, d)
    ensures c == d
  {
    hide Ahead;
    AheadIsOrder();
  }

  function Advance(runs: seq<seq<Entry>>, c: nat): seq<seq<Entry>>
    requires Live(runs, c)
  {
    runs[c := runs[c][1..]]
  }

  ghost function Merge(runs: seq<seq<Entry>>): seq<Item>
    decreases Total(runs)
  {
    if exists c :: Live(runs, c) then
      var c := MinChild(runs);
      TotalUpdate(runs, c, runs[c][1..]);
      [Head(runs, c)] + Merge(Advance(runs, c))
    else []
  }

  ghost function Entries(items: seq<Item>): (r: seq<Entry>)
    ensures |r| == |items|
  {
    seq(|items|, i requires 0 <= i < |items| => items[i].entry)
  }

  // ------------------------------------------- what the merge is, independently

  /** Item `x` is still to come out of `runs`. */
  ghost predicate Pending(runs: seq<seq<Entry>>, x: Item) {
    x.child < |runs| && x.entry in runs[x.child]
  }

  /** The merge delivers exactly the pending items. */
  lemma {:induction false} MergeContents(runs: seq<seq<Entry>>, x: Item)
    ensures x in Merge(runs) <==> Pending(runs, x)
    decreases Total(runs)
  {
    if exists c :: Live(runs, c) {
      var c := MinChild(runs);
      TotalUpdate(runs, c, runs[c][1..]);
      MergeContents(Advance(runs, c), x);
      assert runs[c] == [runs[c][0]] + runs[c][1..];
      assert Merge(runs) == [Head(runs, c)] + Merge(Advance(runs, c));
    } else {
      assert Pending(runs, x) ==> Live(runs, x.child);
    }
  }

  lemma AdvanceSorted(runs: seq<seq<Entry>>, c: nat)
    requires RunsSorted(runs) && Live(runs, c)
    ensures RunsSorted(Advance(runs, c))
  {
    hide Before;
  }

  /** Everything pending after the minimum comes after it. */
  lemma MinAheadOfRest(runs: seq<seq<Entry>>, c: nat, x: Item)
    requires RunsSorted(runs) && IsMin(runs, c) && Pending(Advance(runs, c), x)
    ensures Ahead(Head(runs, c), x)
  {
    hide Before;
    AheadIsOrder();
    var h := Item(runs[x.child][0], x.child);
    assert h == Head(runs, x.child);
    if x.child == c {
      var k :| 0 <= k < |runs[c]| - 1 && runs[c][1..][k] == x.entry;
      assert Before(runs[c][0], runs[c][k + 1]);
    } else {
      var k :| 0 <= k < |runs[x.child]| && runs[x.child][k] == x.entry;
      if k > 0 { assert Before(runs[x.child][0], runs[x.child][k]); }
    }
  }

  /** The merge is strictly ascending, with exact ties in child order. */
  lemma {:induction false} MergeSorted(runs: seq<seq<Entry>>)
    requires RunsSorted(runs)
    ensures AheadSorted(Merge(runs))
    decreases Total(runs)
  {
    hide Ahead, Before;
    if exists c :: Live(runs, c) {
      var c := MinChild(runs);
      TotalUpdate(runs, c, runs[c][1..]);
      var rest := Merge(Advance(runs, c));
      AdvanceSorted(runs, c);
      MergeSorted(Advance(runs, c));
      forall j | 0 <= j < |rest| ensures Ahead(Head(runs, c), rest[j]) {
        MergeContents(Advance(runs, c), rest[j]);
        MinAheadOfRest(runs, c, rest[j]);
      }
    }
  }

  lemma {:induction false} MergeLength(runs: seq<seq<Entry>>)
    ensures |Merge(runs)| == Total(runs)
    decreases Total(runs)
  {
    if exists c :: Live(runs, c) {
      var c := MinChild(runs);
      TotalUpdate(runs, c, runs[c][1..]);
      MergeLength(Advance(runs, c));
    } else {
      AllEmpty(runs);
    }
  }

  lemma {:induction false} AllEmpty(runs: seq<seq<Entry>>)
    requires forall c :: !Live(runs, c)
    ensures Total(runs) == 0
    decreases |runs|
  {
    if runs != [] {
      assert !Live(runs, 0);
      forall c ensures !Live(runs[1..], c) { assert !Live(runs, c + 1); }
      AllEmpty(runs[1..]);
    }
  }
}
