/** The block cache, after src/cache.cpp: shards, each a list in order of use and an index
    from keys to list nodes. */
module Caches {
  import opened ByteStrings

  datatype Key = Key(file: nat, offset: nat)

  datatype Item = Item(key: Key, value: Bytes)

  // ------------------------------------------- least recently used, on sequences

  /** Bytes held, most recently used first. */
  function Charge(es: seq<Item>): nat {
    if es == [] then 0 else Charge(es[..|es| - 1]) + |es[|es| - 1].value|
  }

  function RemoveKey(es: seq<Item>, key: Key): seq<Item> {
    if es == [] then [] else if es[0].key == key then es[1..] else [es[0]] + RemoveKey(es[1..], key)
  }

  function Find(es: seq<Item>, key: Key): Option<Bytes> {
    if es == [] then None else if es[0].key == key then Some(es[0].value) else Find(es[1..], key)
  }

  /** A use moves an entry to the front. */
  function Touch(es: seq<Item>, key: Key): seq<Item> {
    match Find(es, key)
    case None => es
    case Some(value) => [Item(key, value)] + RemoveKey(es, key)
  }

  /** Eviction from the back, never of the front entry. */
  function Trim(es: seq<Item>, capacity: nat): seq<Item>
    decreases |es|
  {
    if Charge(es) > capacity && |es| > 1 then Trim(es[..|es| - 1], capacity) else es
  }

  function Put(es: seq<Item>, key: Key, value: Bytes, capacity: nat): seq<Item> {
    if Find(es, key).Some? then Touch(es, key) else Trim([Item(key, value)] + es, capacity)
  }

  function DropFile(es: seq<Item>, file: nat): seq<Item> {
    if es == [] then [] else (if es[0].key.file == file then [] else [es[0]]) + DropFile(es[1..], file)
  }

  ghost predicate Distinct(es: seq<Item>) {
    forall i, j :: 0 <= i < j < |es| ==> es[i].key != es[j].key
  }

  /** What is cached is what a direct read of the file returns. */
  ghost predicate Faithful(es: seq<Item>, disk: Key -> Bytes) {
    forall i :: 0 <= i < |es| ==> es[i].value == disk(es[i].key)
  }

  /** Within budget, unless a single entry exceeds it by itself. */
  ghost predicate Fits(es: seq<Item>, capacity: nat) {
    Charge(es) <= capacity || |es| == 1
  }

  // ------------------------------------------------------------ what they keep

  /** What stays is the longest run of most recent entries that fits, and at least one. */
  lemma {:induction false} TrimIsLongest(es: seq<Item>, capacity: nat)
    requires es != []
    ensures var r := Trim(es, capacity);
      && r != [] && r <= es && Fits(r, capacity)
      && forall n :: |r| < n <= |es| ==> Charge(es[..n]) > capacity
    decreases |es|
  {
    assert es[..|es|] == es;
    if Charge(es) > capacity && |es| > 1 {
      var front := es[..|es| - 1];
      TrimIsLongest(front, capacity);
      var r := Trim(front, capacity);
      forall n | |r| < n <= |es| ensures Charge(es[..n]) > capacity {
        if n < |es| { assert es[..n] == front[..n]; }
      }
    }
  }

  lemma {:induction false} FindIs(es: seq<Item>, key: Key)
    ensures Find(es, key).Some? <==> exists i :: 0 <= i < |es| && es[i].key == key
    ensures Find(es, key).Some? ==> exists i :: 0 <= i < |es| && es[i] == Item(key, Find(es, key).value)
    decreases |es|
  {
    if es != [] && es[0].key != key {
      FindIs(es[1..], key);
      if i :| 0 <= i < |es| && es[i].key == key { assert es[1..][i - 1].key == key; }
      if Find(es[1..], key).Some? {
        var i :| 0 <= i < |es[1..]| && es[1..][i] == Item(key, Find(es[1..], key).value);
        assert es[i + 1] == es[1..][i];
      }
    }
  }

  lemma {:induction false} RemoveKeyIs(es: seq<Item>, key: Key)
    requires Distinct(es)
    ensures Distinct(RemoveKey(es, key))
    ensures forall x :: x in RemoveKey(es, key) <==> x in es && x.key != key
    decreases |es|
  {
    if es != [] {
      RemoveKeyIs(es[1..], key);
      forall x ensures x in RemoveKey(es, key) <==> x in es && x.key != key {
        if x in es && x.key != key && x != es[0] { assert x in es[1..]; }
      }
      var r := RemoveKey(es[1..], key);
      forall j | 0 <= j < |r| ensures es[0].key != r[j].key { assert r[j] in es[1..]; }
    }
  }

  /** A use reorders the entries and changes nothing else. */
  lemma TouchIs(es: seq<Item>, key: Key)
    requires Distinct(es)
    ensures Distinct(Touch(es, key)) && forall x :: x in Touch(es, key) <==> x in es
    ensures Find(es, key).Some? ==> Touch(es, key) != [] && Touch(es, key)[0] == Item(key, Find(es, key).value)
  {
    if Find(es, key).Some? {
      FindIs(es, key);
      RemoveKeyIs(es, key);
      var r := RemoveKey(es, key);
      forall j | 0 <= j < |r| ensures key != r[j].key { assert r[j] in r; }
      forall x ensures x in Touch(es, key) <==> x in es {
        if x in es && x.key == key { SameKey(es, x, Item(key, Find(es, key).value)); }
      }
    }
  }

  lemma SameKey(es: seq<Item>, x: Item, y: Item)
    requires Distinct(es) && x in es && y in es && x.key == y.key
    ensures x == y
  {
  }

  lemma {:induction false} RemoveLength(es: seq<Item>, key: Key)
    requires Find(es, key).Some?
    ensures |RemoveKey(es, key)| == |es| - 1
    decreases |es|
  {
    if es[0].key != key { RemoveLength(es[1..], key); }
  }

  /** A use changes neither how many entries there are nor what they charge. */
  lemma TouchFits(es: seq<Item>, key: Key, capacity: nat)
    ensures |Touch(es, key)| == |es| && Charge(Touch(es, key)) == Charge(es)
    ensures Fits(Touch(es, key), capacity) <==> Fits(es, capacity)
  {
    hide Charge;
    if Find(es, key).Some? {
      RemoveLength(es, key);
      TouchCharge(es, key);
    }
  }

  /** An insertion puts the key in front, keeps what was cached under it, adds nothing else,
      and leaves the shard within budget. */
  lemma PutIs(es: seq<Item>, key: Key, value: Bytes, capacity: nat)
    requires Distinct(es)
    ensures var r := Put(es, key, value, capacity);
      && Distinct(r) && r != [] && r[0] == Item(key, if Find(es, key).Some? then Find(es, key).value else value)
      && (Find(es, key).None? || Fits(es, capacity) ==> Fits(r, capacity))
      && forall x :: x in r ==> x in es || x == Item(key, value)
  {
    TouchIs(es, key);
    FindIs(es, key);
    TouchFits(es, key, capacity);
    if Find(es, key).None? { TrimIsLongest([Item(key, value)] + es, capacity); }
  }

  lemma {:induction false} DropFileIs(es: seq<Item>, file: nat)
    requires Distinct(es)
    ensures Distinct(DropFile(es, file))
    ensures forall x :: x in DropFile(es, file) <==> x in es && x.key.file != file
    decreases |es|
  {
    if es != [] {
      DropFileIs(es[1..], file);
      forall x ensures x in DropFile(es, file) <==> x in es && x.key.file != file {
        if x in es && x.key.file != file && x != es[0] { assert x in es[1..]; }
      }
      var r := DropFile(es[1..], file);
      forall j | 0 <= j < |r| ensures es[0].key != r[j].key { assert r[j] in es[1..]; }
    }
  }

  /** Dropping a file's entries frees what they charge. */
  lemma {:induction false} DropFileFits(es: seq<Item>, file: nat, capacity: nat)
    ensures |DropFile(es, file)| <= |es| && Charge(DropFile(es, file)) <= Charge(es)
    ensures Fits(es, capacity) ==> Fits(DropFile(es, file), capacity)
    decreases |es|
  {
    hide Charge;
    if es != [] {
      DropFileFits(es[1..], file, capacity);
      assert es == [es[0]] + es[1..];
      ChargeFront(es[0], es[1..]);
      ChargeFront(es[0], DropFile(es[1..], file));
      assert [] + DropFile(es[1..], file) == DropFile(es[1..], file);
    }
    assert Charge([]) == 0 by { NoCharge(); }
  }

  lemma NoCharge()
    ensures Charge([]) == 0
  {
  }

  lemma FaithfulIs(es: seq<Item>, disk: Key -> Bytes)
    ensures Faithful(es, disk) <==> forall x :: x in es ==> x.value == disk(x.key)
  {
    if forall x :: x in es ==> x.value == disk(x.key) {
      forall i | 0 <= i < |es| ensures es[i].value == disk(es[i].key) { assert es[i] in es; }
    }
  }

  /** The three operations, in any order. */
  datatype Use = Lookup(key: Key) | Insert(key: Key, value: Bytes) | EraseFile(file: nat)

  function Run(es: seq<Item>, uses: seq<Use>, capacity: nat): seq<Item> {
    if uses == [] then es
    else
      var before := Run(es, uses[..|uses| - 1], capacity);
      match uses[|uses| - 1]
      case Lookup(key) => Touch(before, key)
      case Insert(key, value) => Put(before, key, value, capacity)
      case EraseFile(file) => DropFile(before, file)
  }

  /** Over any sequence of operations on a cache that starts empty, keys stay distinct, the
      charge stays within budget, and whatever is cached equals a direct read, provided what
      is inserted does. */
  lemma {:induction false} RunKeeps(uses: seq<Use>, capacity: nat, disk: Key -> Bytes)
    requires forall i :: 0 <= i < |uses| && uses[i].Insert? ==> uses[i].value == disk(uses[i].key)
    ensures Distinct(Run([], uses, capacity)) && Faithful(Run([], uses, capacity), disk)
    ensures Fits(Run([], uses, capacity), capacity)
    decreases |uses|
  {
    hide Touch, Put, DropFile, Find;
    if uses != [] {
      var n := |uses| - 1;
      var before := Run([], uses[..n], capacity);
      RunKeeps(uses[..n], capacity, disk);
      FaithfulIs(before, disk);
      FaithfulIs(Run([], uses, capacity), disk);
      match uses[n] {
        case Lookup(key) =>
          TouchIs(before, key);
          TouchFits(before, key, capacity);
        case Insert(key, value) => PutIs(before, key, value, capacity);
        case EraseFile(file) =>
          DropFileIs(before, file);
          DropFileFits(before, file, capacity);
      }
    }
  }

  // -------------------------------------------------------- in order of last use

  /** Where a key is found, and that removing it disturbs no other entry. */
  lemma {:induction false} FoundAt(es: seq<Item>, key: Key) returns (i: nat)
    requires Find(es, key).Some?
    ensures i < |es| && es[i] == Item(key, Find(es, key).value) && forall j :: 0 <= j < i ==> es[j].key != key
    ensures RemoveKey(es, key) == es[..i] + es[i + 1..]
    decreases |es|
  {
    if es[0].key == key {
      i := 0;
    } else {
      var k := FoundAt(es[1..], key);
      i := k + 1;
      assert es[..i] == [es[0]] + es[1..][..k] && es[i + 1..] == es[1..][k + 1..];
    }
  }

  /** A use moves the one entry to the front and leaves the others in their order. */
  lemma TouchSplices(es: seq<Item>, key: Key)
    ensures Find(es, key).None? ==> Touch(es, key) == es
    ensures Find(es, key).Some? ==> exists i ::
      0 <= i < |es| && es[i].key == key && Touch(es, key) == [es[i]] + es[..i] + es[i + 1..]
  {
    if Find(es, key).Some? {
      var i := FoundAt(es, key);
      assert Touch(es, key) == [es[i]] + es[..i] + es[i + 1..];
    }
  }

  predicate Uses(u: Use, key: Key) {
    match u
    case Lookup(k) => k == key
    case Insert(k, _) => k == key
    case EraseFile(_) => false
  }

  /** When a key was last looked up or inserted; -1 if never. */
  function LastUse(uses: seq<Use>, key: Key): int {
    if uses == [] then -1
    else if Uses(uses[|uses| - 1], key) then |uses| - 1
    else LastUse(uses[..|uses| - 1], key)
  }

  /** Most recently used first. */
  ghost predicate ByLastUse(es: seq<Item>, uses: seq<Use>) {
    && (forall i :: 0 <= i < |es| ==> LastUse(uses, es[i].key) >= 0)
    && (forall i, j :: 0 <= i < j < |es| ==> LastUse(uses, es[i].key) > LastUse(uses, es[j].key))
  }

  lemma {:induction false} LastUseIs(uses: seq<Use>, key: Key)
    ensures var n := LastUse(uses, key);
      && -1 <= n < |uses| && (n >= 0 ==> Uses(uses[n], key))
      && forall m :: n < m < |uses| ==> !Uses(uses[m], key)
    decreases |uses|
  {
    if uses != [] { LastUseIs(uses[..|uses| - 1], key); }
  }

  lemma OneMoreUse(uses: seq<Use>, u: Use, key: Key)
    ensures LastUse(uses + [u], key) == if Uses(u, key) then |uses| else LastUse(uses, key)
  {
    assert (uses + [u])[..|uses|] == uses;
  }

  lemma FrontByLastUse(e: Item, es: seq<Item>, uses: seq<Use>, u: Use)
    requires ByLastUse(es, uses) && Uses(u, e.key) && forall i :: 0 <= i < |es| ==> !Uses(u, es[i].key)
    ensures ByLastUse([e] + es, uses + [u])
  {
    hide LastUse, Uses;
    OneMoreUse(uses, u, e.key);
    forall i | 0 <= i < |es| ensures 0 <= LastUse(uses + [u], es[i].key) == LastUse(uses, es[i].key) < |uses| {
      OneMoreUse(uses, u, es[i].key);
      LastUseIs(uses, es[i].key);
    }
  }

  lemma TouchByLastUse(es: seq<Item>, uses: seq<Use>, u: Use, key: Key)
    requires Distinct(es) && ByLastUse(es, uses) && forall k :: Uses(u, k) <==> k == key
    ensures ByLastUse(Touch(es, key), uses + [u])
  {
    hide LastUse, Uses, Find, RemoveKey;
    if Find(es, key).Some? {
      var i := FoundAt(es, key);
      FrontByLastUse(es[i], es[..i] + es[i + 1..], uses, u);
    } else {
      FindIs(es, key);
      forall i | 0 <= i < |es| ensures LastUse(uses + [u], es[i].key) == LastUse(uses, es[i].key) {
        OneMoreUse(uses, u, es[i].key);
      }
    }
  }

  lemma PutByLastUse(es: seq<Item>, uses: seq<Use>, key: Key, value: Bytes, capacity: nat)
    requires Distinct(es) && ByLastUse(es, uses)
    ensures ByLastUse(Put(es, key, value, capacity), uses + [Insert(key, value)])
  {
    hide LastUse, Find, Touch, Trim;
    FindIs(es, key);
    if Find(es, key).Some? {
      TouchByLastUse(es, uses, Insert(key, value), key);
    } else {
      FrontByLastUse(Item(key, value), es, uses, Insert(key, value));
      TrimIsLongest([Item(key, value)] + es, capacity);
    }
  }

  lemma ConsByLastUse(e: Item, es: seq<Item>, uses: seq<Use>)
    requires ByLastUse(es, uses) && LastUse(uses, e.key) >= 0
    requires forall x :: x in es ==> LastUse(uses, e.key) > LastUse(uses, x.key)
    ensures ByLastUse([e] + es, uses)
  {
    hide LastUse;
  }

  lemma TailByLastUse(es: seq<Item>, uses: seq<Use>)
    requires es != [] && ByLastUse(es, uses)
    ensures ByLastUse(es[1..], uses) && forall x :: x in es[1..] ==> LastUse(uses, es[0].key) > LastUse(uses, x.key)
  {
    hide LastUse;
  }

  lemma {:induction false} DropByLastUse(es: seq<Item>, uses: seq<Use>, file: nat)
    requires Distinct(es) && ByLastUse(es, uses)
    ensures ByLastUse(DropFile(es, file), uses)
    decreases |es|
  {
    hide LastUse;
    if es != [] {
      var rest := DropFile(es[1..], file);
      assert LastUse(uses, es[0].key) >= 0;
      TailByLastUse(es, uses);
      DropFileIs(es[1..], file);
      DropByLastUse(es[1..], uses, file);
      hide ByLastUse;
      ConsByLastUse(es[0], rest, uses);
      assert [] + rest == rest;
    }
  }

  /** Over any sequence of operations the entries stand in order of their last use, so that
      eviction from the back takes the least recently used. */
  lemma {:induction false} RunByLastUse(uses: seq<Use>, capacity: nat)
    ensures Distinct(Run([], uses, capacity)) && ByLastUse(Run([], uses, capacity), uses)
    decreases |uses|
  {
    hide Touch, Put, DropFile, Find, LastUse;
    if uses != [] {
      var n := |uses| - 1;
      var before := Run([], uses[..n], capacity);
      RunByLastUse(uses[..n], capacity);
      assert uses == uses[..n] + [uses[n]];
      match uses[n] {
        case Lookup(key) =>
          TouchIs(before, key);
          TouchByLastUse(before, uses[..n], uses[n], key);
        case Insert(key, value) =>
          PutIs(before, key, value, capacity);
          PutByLastUse(before, uses[..n], key, value, capacity);
        case EraseFile(file) =>
          DropFileIs(before, file);
          DropByLastUse(before, uses[..n], file);
          forall key ensures LastUse(uses, key) == LastUse(uses[..n], key) { OneMoreUse(uses[..n], uses[n], key); }
      }
    }
  }

  // -------------------------------------------------------------- nodes and index

  function Items(order: seq<nat>, nodes: map<nat, Item>): (r: seq<Item>)
    requires forall i :: 0 <= i < |order| ==> order[i] in nodes
    ensures |r| == |order|
  {
    seq(|order|, i requires 0 <= i < |order| => nodes[order[i]])
  }

  lemma ItemAt(order: seq<nat>, nodes: map<nat, Item>, i: nat)
    requires ListOk(order, nodes) && i < |order|
    ensures order[i] in nodes && Items(order, nodes)[i] == nodes[order[i]]
  {
  }

  function RemoveId(order: seq<nat>, id: nat): seq<nat> {
    if order == [] then [] else if order[0] == id then order[1..] else [order[0]] + RemoveId(order[1..], id)
  }

  ghost predicate ListOk(order: seq<nat>, nodes: map<nat, Item>) {
    && (forall i :: 0 <= i < |order| ==> order[i] in nodes)
    && (forall id :: id in nodes ==> id in order)
    && (forall i, j :: 0 <= i < j < |order| ==> order[i] != order[j])
  }

  /** Every node is indexed under its key, and nothing else is. */
  ghost predicate IndexOk(index: map<Key, nat>, nodes: map<nat, Item>) {
    && (forall key :: key in index ==> index[key] in nodes && nodes[index[key]].key == key)
    && (forall id :: id in nodes ==> nodes[id].key in index && index[nodes[id].key] == id)
  }

  lemma {:induction false} RemoveIdIs(order: seq<nat>, id: nat)
    requires forall i, j :: 0 <= i < j < |order| ==> order[i] != order[j]
    ensures var r := RemoveId(order, id);
      && (forall x :: x in r <==> x in order && x != id)
      && (forall i, j :: 0 <= i < j < |r| ==> r[i] != r[j])
    decreases |order|
  {
    if order != [] {
      RemoveIdIs(order[1..], id);
      var r, t := RemoveId(order, id), RemoveId(order[1..], id);
      forall x ensures x in r <==> x in order && x != id {
        if x in order && x != order[0] { assert x in order[1..]; }
        if k :| 0 <= k < |order[1..]| && order[1..][k] == x { assert order[k + 1] == x && order[0] != x; }
      }
      forall j | 0 <= j < |t| ensures order[0] != t[j] { assert t[j] in order[1..]; }
    }
  }

  lemma {:induction false} RemoveItem(order: seq<nat>, nodes: map<nat, Item>, id: nat)
    requires forall i :: 0 <= i < |order| ==> order[i] in nodes
    requires id in nodes && forall i, j :: i in nodes && j in nodes && nodes[i].key == nodes[j].key ==> i == j
    ensures forall x :: x in RemoveId(order, id) ==> x in nodes
    ensures Items(RemoveId(order, id), nodes) == RemoveKey(Items(order, nodes), nodes[id].key)
    decreases |order|
  {
    if order != [] {
      RemoveItem(order[1..], nodes, id);
      assert Items(order, nodes)[1..] == Items(order[1..], nodes);
    }
  }

  lemma ItemsDistinct(order: seq<nat>, nodes: map<nat, Item>, index: map<Key, nat>)
    requires ListOk(order, nodes) && IndexOk(index, nodes)
    ensures Distinct(Items(order, nodes))
    ensures forall key :: key in index <==> Find(Items(order, nodes), key).Some?
    ensures forall key :: key in index ==> Find(Items(order, nodes), key) == Some(nodes[index[key]].value)
  {
    var es := Items(order, nodes);
    forall key ensures key in index <==> Find(es, key).Some? {
      FindIs(es, key);
      if key in index {
        var i :| 0 <= i < |order| && order[i] == index[key];
        assert es[i].key == key;
      }
    }
    forall key | key in index ensures Find(es, key) == Some(nodes[index[key]].value) { FindIs(es, key); }
  }

  class Shard {
    var order: seq<nat>          // list nodes, most recently used first
    var nodes: map<nat, Item>
    var index: map<Key, nat>     // key to list node
    var charge: nat
    var nextNode: nat
    const capacity: nat

    /** List, index and charge agree. */
    ghost predicate Linked()
      reads this
    {
      && ListOk(order, nodes) && IndexOk(index, nodes)
      && charge == Charge(Items(order, nodes))
      && forall id :: id in nodes ==> id < nextNode
    }

    ghost function Contents(): seq<Item>
      reads this
      requires Linked()
    {
      Items(order, nodes)
    }

    ghost predicate Valid()
      reads this
    {
      Linked() && Fits(Contents(), capacity)
    }

    constructor (capacity: nat)
      ensures Valid() && this.capacity == capacity && Contents() == []
    {
      this.capacity := capacity;
      order, nodes, index, charge, nextNode := [], map[], map[], 0, 0;
    }

    /** Moves a node to the front; the index needs no change. */
    method MoveToFront(id: nat)
      requires Valid() && id in nodes
      modifies this`order
      ensures Valid() && Contents() == Touch(old(Contents()), nodes[id].key)
    {
      hide Charge, Touch, Find, ListOk, IndexOk, Items, RemoveId, Fits;
      ghost var es := Contents();
      FrontOk(order, nodes, index, id);
      order := [id] + RemoveId(order, id);
      TouchFits(es, nodes[id].key, capacity);
    }

    method Lookup(key: Key) returns (value: Option<Bytes>)
      requires Valid()
      modifies this`order
      ensures Valid() && value == Find(old(Contents()), key) && Contents() == Touch(old(Contents()), key)
    {
      hide Charge, Find, Fits;
      ItemsDistinct(order, nodes, index);
      if key !in index { return None; }
      value := Some(nodes[index[key]].value);
      MoveToFront(index[key]);
    }

    /** Drops the least recently used entry. */
    method Evict()
      requires Linked() && |order| > 1
      modifies this`order, this`nodes, this`index, this`charge
      ensures Linked() && old(Contents()) != [] && Contents() == old(Contents())[..|old(Contents())| - 1]
    {
      ghost var es := Contents();
      Unlink(|order| - 1);
      assert Cut(es, |es| - 1) == es[..|es| - 1];
    }

    method Insert(key: Key, block: Bytes) returns (value: Bytes)
      requires Valid()
      modifies this
      ensures Valid() && Contents() == Put(old(Contents()), key, block, capacity)
      ensures Contents() != [] && Contents()[0] == Item(key, value)
    {
      hide Charge, Find, Touch, Trim;
      ghost var es := Contents();
      ItemsDistinct(order, nodes, index);
      PutIs(es, key, block, capacity);
      if key in index {
        TouchIs(es, key);
        value := nodes[index[key]].value;
        MoveToFront(index[key]);
        return;
      }
      PushFront(key, block);
      value := block;
      while charge > capacity && |order| > 1
        invariant Linked() && Trim(Contents(), capacity) == Trim([Item(key, block)] + es, capacity) && Contents() != []
        decreases |order|
      {
        TrimStep(Contents(), capacity);
        Evict();
      }
      TrimEnd(Contents(), capacity);
    }

    method PushFront(key: Key, block: Bytes)
      requires Linked() && key !in index
      modifies this
      ensures Linked() && Contents() == [Item(key, block)] + old(Contents())
    {
      hide Charge;
      ghost var es := Contents();
      var item := Item(key, block);
      nodes := nodes[nextNode := item];
      order := [nextNode] + order;
      index := index[key := nextNode];
      charge := charge + |block|;
      nextNode := nextNode + 1;
      assert Items(order, nodes) == [item] + es;
      ChargeFront(item, es);
    }

    /** Walks the list and unlinks every node of the file. */
    method EraseFile(file: nat)
      requires Valid()
      modifies this
      ensures Valid() && Contents() == DropFile(old(Contents()), file)
    {
      hide Charge, DropFile, Fits, Items, ListOk, IndexOk;
      ghost var es := Contents();
      DropFileFits(es, file, capacity);
      var i := 0;
      assert es[..0] == [];
      assert DropFile([], file) == [] by { DropNone(file); }
      while i < |order|
        invariant Linked() && i <= |order|
        invariant DropFile(es, file) == Contents()[..i] + DropFile(Contents()[i..], file)
        decreases |order| - i
      {
        ghost var cur := Contents();
        ItemAt(order, nodes, i);
        var item := nodes[order[i]];
        DropStep(cur, i, file);
        if item.key.file == file {
          Unlink(i);
          assert Contents()[..i] == cur[..i] && Contents()[i..] == cur[i + 1..];
        } else {
          assert cur[..i + 1] == cur[..i] + [cur[i]];
          i := i + 1;
        }
      }
      assert Contents()[..i] == Contents() && Contents()[i..] == [];
      assert Contents() == DropFile(es, file);
    }

    method Unlink(i: nat)
      requires Linked() && i < |order|
      modifies this`order, this`nodes, this`index, this`charge
      ensures Linked() && i < |old(Contents())| && Contents() == Cut(old(Contents()), i)
    {
      hide Charge, ListOk, IndexOk, Items;
      ghost var es := Contents();
      UnlinkOk(order, nodes, index, i);
      ChargeSplit(es, i);
      var id := order[i];
      var item := nodes[id];
      charge := charge - |item.value|;
      index := index - {item.key};
      nodes := nodes - {id};
      order := Cut(order, i);
    }
  }

  lemma ItemsFront(id: nat, order: seq<nat>, nodes: map<nat, Item>)
    requires id in nodes && forall i :: 0 <= i < |order| ==> order[i] in nodes
    ensures forall i :: 0 <= i < |[id] + order| ==> ([id] + order)[i] in nodes
    ensures Items([id] + order, nodes) == [nodes[id]] + Items(order, nodes)
  {
  }

  /** So does moving one to the front. */
  lemma FrontOk(order: seq<nat>, nodes: map<nat, Item>, index: map<Key, nat>, id: nat)
    requires ListOk(order, nodes) && IndexOk(index, nodes) && id in nodes
    ensures ListOk([id] + RemoveId(order, id), nodes)
    ensures Items([id] + RemoveId(order, id), nodes) == Touch(Items(order, nodes), nodes[id].key)
    ensures Find(Items(order, nodes), nodes[id].key).Some?
  {
    hide Touch, Find, RemoveId, RemoveKey;
    ItemsDistinct(order, nodes, index);
    RemoveIdIs(order, id);
    RemoveItem(order, nodes, id);
    FrontIs(Items(order, nodes), nodes[id].key);
    ItemsFront(id, RemoveId(order, id), nodes);
  }

  /** Unlinking one node keeps list and index consistent. */
  lemma UnlinkOk(order: seq<nat>, nodes: map<nat, Item>, index: map<Key, nat>, i: nat)
    requires ListOk(order, nodes) && IndexOk(index, nodes) && i < |order|
    ensures var id := order[i];
      var order', nodes', index' := Cut(order, i), nodes - {id}, index - {nodes[id].key};
      && id in nodes && ListOk(order', nodes') && IndexOk(index', nodes')
      && Items(order, nodes)[i] == nodes[id] && Items(order', nodes') == Cut(Items(order, nodes), i)
  {
    hide ListOk, IndexOk;
    UnlinkList(order, nodes, i);
    UnlinkIndex(nodes, index, order[i]);
  }

  lemma UnlinkIndex(nodes: map<nat, Item>, index: map<Key, nat>, id: nat)
    requires IndexOk(index, nodes) && id in nodes
    ensures IndexOk(index - {nodes[id].key}, nodes - {id})
  {
  }

  function Cut<T>(s: seq<T>, i: nat): (r: seq<T>)
    requires i < |s|
    ensures |r| == |s| - 1
  {
    s[..i] + s[i + 1..]
  }

  lemma CutAt<T>(s: seq<T>, i: nat, k: nat)
    requires i < |s| && k < |s| - 1
    ensures Cut(s, i)[k] == s[if k < i then k else k + 1]
  {
  }

  lemma CutKeeps(order: seq<nat>, i: nat, x: nat)
    requires i < |order| && x in order && x != order[i]
    ensures x in Cut(order, i)
  {
    hide Cut;
    var k :| 0 <= k < |order| && order[k] == x;
    CutAt(order, i, if k < i then k else k - 1);
  }

  lemma CutList(order: seq<nat>, nodes: map<nat, Item>, i: nat)
    requires ListOk(order, nodes) && i < |order|
    ensures order[i] in nodes && ListOk(Cut(order, i), nodes - {order[i]})
  {
    hide Cut;
    var rest, nodes' := Cut(order, i), nodes - {order[i]};
    forall x | x in nodes' ensures x in rest { CutKeeps(order, i, x); }
    forall k | 0 <= k < |rest| ensures rest[k] in nodes' { CutAt(order, i, k); }
    forall j, k | 0 <= j < k < |rest| ensures rest[j] != rest[k] { CutAt(order, i, j); CutAt(order, i, k); }
  }

  lemma UnlinkList(order: seq<nat>, nodes: map<nat, Item>, i: nat)
    requires ListOk(order, nodes) && i < |order|
    ensures order[i] in nodes && ListOk(Cut(order, i), nodes - {order[i]})
    ensures |Items(order, nodes)| == |order| && Items(order, nodes)[i] == nodes[order[i]]
    ensures Items(Cut(order, i), nodes - {order[i]}) == Cut(Items(order, nodes), i)
  {
    hide Cut;
    CutList(order, nodes, i);
    var rest, nodes' := Cut(order, i), nodes - {order[i]};
    forall k | 0 <= k < |rest| ensures Items(rest, nodes')[k] == Cut(Items(order, nodes), i)[k] {
      CutAt(order, i, k);
      CutAt(Items(order, nodes), i, k);
    }
  }

  lemma DropNone(file: nat)
    ensures DropFile([], file) == []
  {
  }

  lemma DropStep(es: seq<Item>, i: nat, file: nat)
    requires i < |es|
    ensures DropFile(es[i..], file) == (if es[i].key.file == file then [] else [es[i]]) + DropFile(es[i + 1..], file)
  {
    assert es[i..][1..] == es[i + 1..];
  }

  lemma TrimStep(es: seq<Item>, capacity: nat)
    requires Charge(es) > capacity && |es| > 1
    ensures Trim(es, capacity) == Trim(es[..|es| - 1], capacity)
  {
  }

  lemma TrimEnd(es: seq<Item>, capacity: nat)
    requires Charge(es) <= capacity || |es| <= 1
    ensures Trim(es, capacity) == es
  {
  }

  lemma FrontIs(es: seq<Item>, key: Key)
    requires Find(es, key).Some?
    ensures Touch(es, key) == [Item(key, Find(es, key).value)] + RemoveKey(es, key)
  {
  }

  lemma {:induction false} ChargeConcat(a: seq<Item>, b: seq<Item>)
    ensures Charge(a + b) == Charge(a) + Charge(b)
    decreases |b|
  {
    if b == [] {
      assert a + b == a;
    } else {
      var front := b[..|b| - 1];
      ChargeConcat(a, front);
      assert (a + b)[..|a + b| - 1] == a + front;
    }
  }

  lemma ChargeFront(e: Item, es: seq<Item>)
    ensures Charge([e] + es) == |e.value| + Charge(es)
  {
    ChargeConcat([e], es);
    assert [e][..0] == [];
  }

  lemma ChargeSplit(es: seq<Item>, i: nat)
    requires i < |es|
    ensures Charge(es) == Charge(es[..i] + es[i + 1..]) + |es[i].value|
  {
    hide Charge;
    ChargeConcat(es[..i], es[i..]);
    ChargeFront(es[i], es[i + 1..]);
    ChargeConcat(es[..i], es[i + 1..]);
    assert es == es[..i] + es[i..] && es[i..] == [es[i]] + es[i + 1..];
  }

  lemma {:induction false} RemoveCharge(es: seq<Item>, key: Key)
    requires Find(es, key).Some?
    ensures Charge(es) == Charge(RemoveKey(es, key)) + |Find(es, key).value|
    decreases |es|
  {
    hide Charge;
    assert es == [es[0]] + es[1..];
    ChargeFront(es[0], es[1..]);
    if es[0].key != key {
      RemoveCharge(es[1..], key);
      ChargeFront(es[0], RemoveKey(es[1..], key));
    }
  }

  lemma TouchCharge(es: seq<Item>, key: Key)
    requires Find(es, key).Some?
    ensures Charge(Touch(es, key)) == Charge(es)
  {
    hide Charge;
    RemoveCharge(es, key);
    ChargeFront(Item(key, Find(es, key).value), RemoveKey(es, key));
  }

  // ------------------------------------------------------------------- the cache

  lemma FindFront(es: seq<Item>)
    requires es != []
    ensures Find(es, es[0].key) == Some(es[0].value)
  {
  }

  /** The same entries in another order answer alike. */
  lemma FindSame(es: seq<Item>, fs: seq<Item>, key: Key)
    requires Distinct(es) && Distinct(fs) && forall x :: x in es <==> x in fs
    ensures Find(es, key) == Find(fs, key)
  {
    hide Find;
    FindIs(es, key);
    FindIs(fs, key);
    if Find(es, key).Some? { FindMember(es, fs, key); }
    if Find(fs, key).Some? { FindMember(fs, es, key); }
  }

  lemma FindMember(es: seq<Item>, fs: seq<Item>, key: Key)
    requires Distinct(fs) && Find(es, key).Some? && forall x :: x in es && x.key == key ==> x in fs
    ensures Find(fs, key) == Find(es, key)
  {
    hide Find;
    FindIs(es, key);
    FindIs(fs, key);
    var x := Item(key, Find(es, key).value);
    assert x in es && x in fs;
    assert exists i :: 0 <= i < |fs| && fs[i].key == key by { var i :| 0 <= i < |fs| && fs[i] == x; }
    SameKey(fs, x, Item(key, Find(fs, key).value));
  }

  lemma PutTouches(es: seq<Item>, key: Key, value: Bytes, capacity: nat)
    requires Find(es, key).Some?
    ensures Put(es, key, value, capacity) == Touch(es, key)
  {
  }

  class BlockCache {
    const shards: seq<Shard>
    const hash: Key -> nat

    /** Shards are separate objects, each consistent. */
    ghost predicate Valid()
      reads this, shards
    {
      && |shards| >= 1 && (forall i, j :: 0 <= i < j < |shards| ==> shards[i] != shards[j])
      && forall i :: 0 <= i < |shards| ==> shards[i].Valid()
    }

    /** Everything cached equals a direct read. */
    ghost predicate Agrees(disk: Key -> Bytes)
      reads this, shards
      requires Valid()
    {
      forall i :: 0 <= i < |shards| ==> Faithful(shards[i].Contents(), disk)
    }

    constructor (capacity: nat, numShards: int, hash: Key -> nat)
      ensures Valid() && fresh(shards) && this.hash == hash && |shards| == (if numShards < 1 then 1 else numShards)
      ensures forall i :: 0 <= i < |shards| ==> shards[i].Contents() == [] && shards[i].capacity == capacity / |shards|
    {
      var n: nat := if numShards < 1 then 1 else numShards;
      var all: seq<Shard> := [];
      for i := 0 to n
        invariant |all| == i && fresh(all)
        invariant forall j, k :: 0 <= j < k < i ==> all[j] != all[k]
        invariant forall j :: 0 <= j < i ==>
          all[j].Valid() && all[j].Contents() == [] && all[j].capacity == capacity / n
      {
        var shard := new Shard(capacity / n);
        all := all + [shard];
      }
      shards, this.hash := all, hash;
    }

    function ShardFor(key: Key): (s: Shard)
      reads this, shards
      requires Valid()
      ensures s in shards
    {
      shards[hash(key) % |shards|]
    }

    /** What is cached under a key. */
    ghost function Cached(key: Key): Option<Bytes>
      reads this, shards
      requires Valid()
    {
      Find(ShardFor(key).Contents(), key)
    }

    /** A hit exactly when the key is cached; no key comes or goes. */
    method Lookup(key: Key, ghost disk: Key -> Bytes) returns (value: Option<Bytes>)
      requires Valid() && Agrees(disk)
      modifies shards
      ensures Valid() && Agrees(disk) && (value.Some? ==> value.value == disk(key))
      ensures value == old(Cached(key)) && forall k :: Cached(k) == old(Cached(k))
      ensures forall i :: 0 <= i < |shards| ==>
        shards[i].Contents()
          == if shards[i] == ShardFor(key) then Touch(old(shards[i].Contents()), key) else old(shards[i].Contents())
    {
      hide Find, Touch, Fits, Items;
      var shard := ShardFor(key);
      ghost var es := shard.Contents();
      ShardDistinct(shard);
      value := shard.Lookup(key);
      TouchIs(es, key);
      FindIs(es, key);
      FaithfulIs(es, disk);
      FaithfulIs(shard.Contents(), disk);
      forall k ensures Find(shard.Contents(), k) == Find(es, k) { FindSame(es, shard.Contents(), k); }
    }

    lemma ShardDistinct(shard: Shard)
      requires shard.Valid()
      ensures Distinct(shard.Contents())
    {
      ItemsDistinct(shard.order, shard.nodes, shard.index);
    }

    /** Afterwards the key is cached, whatever had to be evicted, and no other key was added. */
    method Insert(key: Key, block: Bytes, ghost disk: Key -> Bytes) returns (value: Bytes)
      requires Valid() && Agrees(disk) && block == disk(key)
      modifies shards
      ensures Valid() && Agrees(disk) && value == disk(key)
      ensures Cached(key) == Some(value) && forall k :: k != key && Cached(k).Some? ==> Cached(k) == old(Cached(k))
      ensures old(Cached(key)).Some? ==> forall k :: Cached(k) == old(Cached(k))
      ensures forall i :: 0 <= i < |shards| ==>
        shards[i].Contents()
          == if shards[i] == ShardFor(key) then Put(old(shards[i].Contents()), key, block, shards[i].capacity)
             else old(shards[i].Contents())
    {
      hide Find, Touch, Put, Fits, Items;
      var shard := ShardFor(key);
      ghost var es := shard.Contents();
      ShardDistinct(shard);
      value := shard.Insert(key, block);
      PutIs(es, key, block, shard.capacity);
      FaithfulIs(es, disk);
      FaithfulIs(shard.Contents(), disk);
      FindFront(shard.Contents());
      forall k | k != key && Find(shard.Contents(), k).Some? ensures Find(shard.Contents(), k) == Find(es, k) {
        FindMember(shard.Contents(), es, k);
      }
      if Find(es, key).Some? {
        PutTouches(es, key, block, shard.capacity);
        TouchIs(es, key);
        forall k ensures Find(shard.Contents(), k) == Find(es, k) { FindSame(es, shard.Contents(), k); }
      }
    }

    method EraseFile(file: nat, ghost disk: Key -> Bytes)
      requires Valid() && Agrees(disk)
      modifies shards
      ensures Valid() && Agrees(disk)
      ensures forall i :: 0 <= i < |shards| ==> shards[i].Contents() == DropFile(old(shards[i].Contents()), file)
      ensures forall i, x :: 0 <= i < |shards| ==>
        (x in shards[i].Contents() <==> x in old(shards[i].Contents()) && x.key.file != file)
    {
      hide DropFile, Items, Distinct, Faithful, Fits, Charge, ListOk, IndexOk;
      forall i | 0 <= i < |shards| ensures Distinct(shards[i].Contents()) { ShardDistinct(shards[i]); }
      for i := 0 to |shards|
        invariant Valid() && Agrees(disk)
        invariant forall j :: 0 <= j < i ==> shards[j].Contents() == DropFile(old(shards[j].Contents()), file)
        invariant forall j :: i <= j < |shards| ==> shards[j].Contents() == old(shards[j].Contents())
      {
        var shard := shards[i];
        ghost var es := shard.Contents();
        ShardDistinct(shard);
        shard.EraseFile(file);
        DropFileIs(es, file);
        FaithfulIs(es, disk);
        FaithfulIs(shard.Contents(), disk);
      }
      forall i | 0 <= i < |shards|
        ensures forall x :: x in shards[i].Contents() <==> x in old(shards[i].Contents()) && x.key.file != file
      {
        DropFileIs(old(shards[i].Contents()), file);
      }
    }
  }
}
