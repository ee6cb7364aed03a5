/** Operations as updates of a map: what a reader at or above a group's sequence numbers sees
    is what the operations, one after the other, make of the map. */
module Updates {
  import opened ByteStrings
  import opened InternalKeys
  import opened Views
  import opened WriteBatches
  import opened MemTables
  import opened Scans

  /** What a list of operations makes of the value a key had. */
  function Updated(before: Option<Bytes>, ops: seq<Op>, key: Bytes): Option<Bytes> {
    if ops == [] then before
    else
      var last := ops[|ops| - 1];
      if last.key != key then Updated(before, ops[..|ops| - 1], key)
      else if last.kind.Value? then Some(last.value) else None
  }

  lemma UpdatedNone(before: Option<Bytes>, key: Bytes)
    ensures Updated(before, [], key) == before
  {
  }

  lemma {:induction false} UpdatedTwice(before: Option<Bytes>, first: seq<Op>, second: seq<Op>, key: Bytes)
    ensures Updated(Updated(before, first, key), second, key) == Updated(before, first + second, key)
    decreases |second|
  {
    if second == [] {
      assert first + second == first;
    } else {
      var n := |second| - 1;
      UpdatedTwice(before, first, second[..n], key);
      assert (first + second)[..|first + second| - 1] == first + second[..n];
    }
  }

  /** Numbered after everything else, a group of operations updates the view like a map. */
  lemma {:induction false} GroupIsUpdate(H: set<Entry>, base: nat, ops: seq<Op>, key: Bytes, sn: nat)
    requires SeqUnique(H) && (forall x :: x in H ==> x.sn < base) && base + |ops| <= sn + 1
    ensures View(H + SetOf(Number(base, ops)), key, sn) == Updated(View(H, key, sn), ops, key)
    decreases |ops|
  {
    hide View, SetOf;
    var es := Number(base, ops);
    if ops == [] {
      NumberNone(base, H);
    } else {
      var n := |ops| - 1;
      var front, e := ops[..n], es[n];
      GroupIsUpdate(H, base, front, key, sn);
      NumberSplit(base, ops, H);
      var E := H + SetOf(Number(base, front));
      NumberBelow(base, front, H);
      NumberBelow(base, ops, H);
      if e.key == key {
        ViewIs(E + {e}, key, sn, e);
      } else {
        ViewSame(E + {e}, E, key, sn);
      }
    }
  }

  lemma NumberNone(base: nat, H: set<Entry>)
    ensures H + SetOf(Number(base, [])) == H
  {
    assert Number(base, []) == [];
  }

  lemma NumberSplit(base: nat, ops: seq<Op>, H: set<Entry>)
    requires ops != []
    ensures var n := |ops| - 1;
      H + SetOf(Number(base, ops)) == H + SetOf(Number(base, ops[..n])) + {Number(base, ops)[n]}
  {
    var n := |ops| - 1;
    assert Number(base, ops) == Number(base, ops[..n]) + [Number(base, ops)[n]];
  }

  lemma NumberBelow(base: nat, ops: seq<Op>, H: set<Entry>)
    requires SeqUnique(H) && forall x :: x in H ==> x.sn < base
    ensures SeqUnique(H + SetOf(Number(base, ops)))
    ensures forall x :: x in H + SetOf(Number(base, ops)) ==> x.sn < base + |ops|
  {
    NumberSeqs(base, ops);
  }
}
