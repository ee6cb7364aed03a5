/** The memtable as a sorted list, after src/memtable.cpp. `SkipLists` shows that the linked
    structure behind it has exactly these contents. */
module MemTables {
  import opened ByteStrings
  import opened InternalKeys
  import opened Views
  import opened Scans
  import opened WriteBatches

  /** The list with `e` put in its place. */
  function Add(mem: seq<Entry>, e: Entry): (r: seq<Entry>)
    ensures |r| == |mem| + 1
  {
    if mem == [] || !Before(mem[0], e) then [e] + mem else [mem[0]] + Add(mem[1..], e)
  }

  lemma {:induction false} AddContents(mem: seq<Entry>, e: Entry)
    ensures SetOf(Add(mem, e)) == SetOf(mem) + {e}
    decreases |mem|
  {
    hide Before;
    if mem != [] && Before(mem[0], e) {
      AddContents(mem[1..], e);
      assert mem == [mem[0]] + mem[1..];
      assert SetOf(mem) == {mem[0]} + SetOf(mem[1..]);
      assert SetOf([mem[0]] + Add(mem[1..], e)) == {mem[0]} + SetOf(Add(mem[1..], e));
    }
  }

  /** Insertion keeps internal-key order, provided the key is new. */
  lemma {:induction false} AddSorted(mem: seq<Entry>, e: Entry)
    requires Sorted(mem) && forall i :: 0 <= i < |mem| ==> mem[i].sn != e.sn
    ensures Sorted(Add(mem, e))
    decreases |mem|
  {
    hide Before;
    BeforeIsOrder();
    if mem != [] {
      if Before(mem[0], e) {
        AddSorted(mem[1..], e);
        AddContents(mem[1..], e);
        var rest := Add(mem[1..], e);
        forall i | 0 <= i < |rest| ensures Before(mem[0], rest[i]) {
          assert rest[i] in SetOf(rest);
        }
      } else {
        NoTie(mem[0], e);
        forall i | 0 <= i < |mem| ensures Before(e, mem[i]) { assert i > 0 ==> Before(mem[0], mem[i]); }
      }
    }
  }

  lemma NoTie(a: Entry, b: Entry)
    requires a.sn != b.sn && !Before(a, b)
    ensures Before(b, a)
  {
    hide Less;
    LessIsOrder();
    if a.key == b.key && Tag(a) == Tag(b) { TagDetermines(a, b); }
  }

  // -------------------------------------------------- numbering a record

  /** The entries of a record: its operations under consecutive sequence numbers. */
  function Number(base: nat, ops: seq<Op>): (r: seq<Entry>)
    ensures |r| == |ops|
  {
    seq(|ops|, i requires 0 <= i < |ops| => Entry(ops[i].key, base + i, ops[i].kind, ops[i].value))
  }

  lemma NumberSeqs(base: nat, ops: seq<Op>)
    ensures forall i :: 0 <= i < |ops| ==> Number(base, ops)[i].sn == base + i
    ensures SeqUnique(SetOf(Number(base, ops)))
    ensures forall x :: x in SetOf(Number(base, ops)) ==> base <= x.sn < base + |ops|
  {
  }
}
