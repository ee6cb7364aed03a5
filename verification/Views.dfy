/** What a reader sees in a collection of entries.

    `View(E, key, sn)` is the simple specification of a read: the newest version of `key` at
    or below `sn` among `E`, hidden if it is a tombstone. A store is a list of sources,
    newest first; `FirstHit` is the way the engine actually reads one. */
module Views {
  import opened ByteStrings
  import opened InternalKeys

  ghost predicate IsNewest(e: Entry, E: set<Entry>, key: Bytes, sn: nat) {
    && e in E && Hit(e, key, sn)
    && forall x :: x in E && Hit(x, key, sn) ==> x.sn <= e.sn
  }

  ghost predicate NoHit(E: set<Entry>, key: Bytes, sn: nat) {
    forall x :: x in E ==> !Hit(x, key, sn)
  }

  /** No two entries share a sequence number. */
  ghost predicate SeqUnique(E: set<Entry>) {
    forall x, y :: x in E && y in E && x.sn == y.sn ==> x == y
  }

  function Result(e: Entry): Option<Bytes> {
    if e.kind.Value? then Some(e.value) else None
  }

  ghost function View(E: set<Entry>, key: Bytes, sn: nat): Option<Bytes> {
    if exists e :: IsNewest(e, E, key, sn) then
      var e :| IsNewest(e, E, key, sn);
      Result(e)
    else None
  }

  lemma {:induction false} NewestExists(E: set<Entry>, key: Bytes, sn: nat)
    requires !NoHit(E, key, sn)
    ensures exists e :: IsNewest(e, E, key, sn)
    decreases |E|
  {
    var x :| x in E && Hit(x, key, sn);
    var rest := E - {x};
    if NoHit(rest, key, sn) {
      assert IsNewest(x, E, key, sn);
    } else {
      NewestExists(rest, key, sn);
      var y :| IsNewest(y, rest, key, sn);
      assert IsNewest(if x.sn > y.sn then x else y, E, key, sn);
    }
  }

  lemma ViewIs(E: set<Entry>, key: Bytes, sn: nat, e: Entry)
    requires SeqUnique(E) && IsNewest(e, E, key, sn)
    ensures View(E, key, sn) == Result(e)
  {
  }

  lemma ViewNone(E: set<Entry>, key: Bytes, sn: nat)
    requires NoHit(E, key, sn)
    ensures View(E, key, sn) == None
  {
  }

  /** Two collections with the same visible entries read the same. */
  lemma ViewSame(E: set<Entry>, F: set<Entry>, key: Bytes, sn: nat)
    requires SeqUnique(E) && SeqUnique(F)
    requires forall x :: Hit(x, key, sn) ==> (x in E <==> x in F)
    ensures View(E, key, sn) == View(F, key, sn)
  {
    if NoHit(E, key, sn) {
      ViewNone(E, key, sn);
      ViewNone(F, key, sn);
    } else {
      NewestExists(E, key, sn);
      var e :| IsNewest(e, E, key, sn);
      ViewIs(E, key, sn, e);
      ViewIs(F, key, sn, e);
    }
  }

  /** Adding an entry newer than everything shows it, and nothing else, to readers at or
      above it. */
  lemma ViewInsert(E: set<Entry>, F: set<Entry>, e: Entry, key: Bytes, sn: nat)
    requires SeqUnique(E) && SeqUnique(F)
    requires View(E, key, sn) == View(F, key, sn)
    requires forall x :: x in E || x in F ==> x.sn < e.sn
    ensures SeqUnique(E + {e}) && SeqUnique(F + {e})
    ensures View(E + {e}, key, sn) == View(F + {e}, key, sn)
  {
    hide View;
    assert SeqUnique(E + {e}) && SeqUnique(F + {e});
    if Hit(e, key, sn) {
      ViewIs(E + {e}, key, sn, e);
      ViewIs(F + {e}, key, sn, e);
    } else {
      ViewSame(E + {e}, E, key, sn);
      ViewSame(F + {e}, F, key, sn);
    }
  }

  // ------------------------------------------------------- dropping versions

  /** Why a merge may leave `x` out: a newer version of the key is visible to every reader
      at or above `floor`, or `x` is a tombstone with nothing left underneath it to hide. */
  ghost predicate Droppable(x: Entry, input: set<Entry>, left: set<Entry>, floor: nat) {
    || Shadowed(x, input, floor)
    || (x.kind.Deletion? && x.sn <= floor && forall y :: y in left && y.key == x.key ==> y.sn >= x.sn)
  }

  ghost predicate Shadowed(x: Entry, input: set<Entry>, floor: nat) {
    exists y :: y in input && y.key == x.key && x.sn < y.sn <= floor
  }

  /** Rewriting `input` as `output` beside the untouched `rest` changes no read at or above
      `floor`. */
  lemma RewriteKeepsView(rest: set<Entry>, input: set<Entry>, output: set<Entry>, floor: nat, key: Bytes, sn: nat)
    requires SeqUnique(rest + input) && output <= input && floor <= sn
    requires forall x :: x in input && x !in output ==> Droppable(x, input, rest + output, floor)
    ensures View(rest + output, key, sn) == View(rest + input, key, sn)
  {
    var was, now := rest + input, rest + output;
    if NoHit(was, key, sn) {
      ViewNone(was, key, sn);
      ViewNone(now, key, sn);
    } else {
      NewestExists(was, key, sn);
      var e :| IsNewest(e, was, key, sn);
      ViewIs(was, key, sn, e);
      if e in now {
        ViewIs(now, key, sn, e);
      } else {
        assert Droppable(e, input, now, floor);
        assert !Shadowed(e, input, floor);
        assert NoHit(now, key, sn);
        ViewNone(now, key, sn);
      }
    }
  }

  // ------------------------------------------------------------ many sources

  ghost function Union(src: seq<set<Entry>>): set<Entry> {
    set i: nat, x | i < |src| && x in src[i] :: x
  }

  /** Shallower sources are at least as new as deeper ones, key by key. */
  ghost predicate Ordered(src: seq<set<Entry>>) {
    forall i, j, x, y :: 0 <= i < j < |src| && x in src[i] && y in src[j] && x.key == y.key ==> x.sn >= y.sn
  }

  /** The engine's read: the first source that knows the key at `sn` decides. */
  ghost predicate IsFirstHit(src: seq<set<Entry>>, key: Bytes, sn: nat, r: Option<Entry>) {
    match r
    case None => forall i :: 0 <= i < |src| ==> NoHit(src[i], key, sn)
    case Some(e) => exists i :: HitAt(src, key, sn, e, i)
  }

  ghost predicate HitAt(src: seq<set<Entry>>, key: Bytes, sn: nat, e: Entry, i: int) {
    0 <= i < |src| && IsNewest(e, src[i], key, sn) && forall j :: 0 <= j < i ==> NoHit(src[j], key, sn)
  }

  function Answer(r: Option<Entry>): Option<Bytes> {
    if r.Some? then Result(r.value) else None
  }

  /** Stopping at the first hit is exact: it is the newest version across all sources. */
  lemma FirstHitIsView(src: seq<set<Entry>>, key: Bytes, sn: nat, r: Option<Entry>)
    requires Ordered(src) && SeqUnique(Union(src)) && IsFirstHit(src, key, sn, r)
    ensures Answer(r) == View(Union(src), key, sn)
  {
    if r.Some? {
      var e := r.value;
      var i :| HitAt(src, key, sn, e, i);
      assert e in Union(src);
      forall x | x in Union(src) && Hit(x, key, sn) ensures x.sn <= e.sn {
        var j: nat :| j < |src| && x in src[j];
        assert j >= i;
      }
      ViewIs(Union(src), key, sn, e);
    } else {
      ViewNone(Union(src), key, sn);
    }
  }
}
