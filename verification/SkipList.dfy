/** The skip list behind a memtable, after include/lsm/skiplist.h.

    Twelve linked chains over the same nodes, the lowest holding them all. An insert first
    publishes the height and then links the new node level by level from the bottom, and a
    reader may run between any two of those stores. Every one of them keeps `Valid`. */
module SkipLists {
  import opened ByteStrings
  import opened Coding
  import opened InternalKeys
  import opened Views
  import opened MergeSpec
  import opened MergingIterators
  import opened Scans
  import opened Versions
  import opened MemTables

  const MAX_HEIGHT: nat := 12

  class Node {
    const key: Entry
    const height: nat
    var next: seq<Node?>

    constructor (key: Entry, height: nat)
      ensures this.key == key && this.height == height && next == seq(height, i => null)
    {
      this.key, this.height := key, height;
      next := seq(height, i => null);
    }
  }

  /** The node a cursor stands on after `i` steps along a chain. */
  ghost function At(head: Node, chain: seq<Node>, i: nat): Node
    requires i <= |chain|
  {
    if i == 0 then head else chain[i - 1]
  }

  /** The node after that, if any. */
  ghost function After(chain: seq<Node>, i: nat): Node? {
    if i < |chain| then chain[i] else null
  }

  /** The links of all nodes at one moment. */
  type Links = map<Node, seq<Node?>>

  /** Following the links at level `l` from the head visits exactly `chain`. */
  ghost predicate Linked(p: Links, head: Node, chain: seq<Node>, l: nat) {
    && head in p && l < |p[head]|
    && (forall i :: 0 <= i < |chain| ==> chain[i] != head && chain[i] in p && l < |p[chain[i]]|)
    && (forall i :: 0 <= i <= |chain| ==> LinksOn(p, head, chain, l, i))
  }

  ghost predicate LinksOn(p: Links, head: Node, chain: seq<Node>, l: nat, i: nat) {
    i <= |chain| && At(head, chain, i) in p && l < |p[At(head, chain, i)]|
      && p[At(head, chain, i)][l] == After(chain, i)
  }

  ghost predicate Ascends(chain: seq<Node>) {
    forall i, j :: 0 <= i < j < |chain| ==> Before(chain[i].key, chain[j].key)
  }

  /** A splice point for a key: everything up to `k` before it, everything from `k` on after. */
  ghost predicate Fits(chain: seq<Node>, k: nat, key: Entry) {
    && k <= |chain|
    && (forall i :: 0 <= i < k ==> Before(chain[i].key, key))
    && (forall i :: k <= i < |chain| ==> Before(key, chain[i].key))
  }

  ghost function Spliced(chain: seq<Node>, k: nat, node: Node): seq<Node>
    requires k <= |chain|
  {
    chain[..k] + [node] + chain[k..]
  }

  function Keys(chain: seq<Node>): (r: seq<Entry>)
    ensures |r| == |chain|
  {
    seq(|chain|, i requires 0 <= i < |chain| => chain[i].key)
  }

  lemma SplicedAscends(chain: seq<Node>, k: nat, node: Node)
    requires Ascends(chain) && Fits(chain, k, node.key)
    ensures Ascends(Spliced(chain, k, node)) && node !in chain
  {
    hide Before;
    BeforeIsOrder();
  }

  // ------------------------------------------------------------- single stores

  /** A store at one level, or to a node outside a chain, leaves the chain linked. */
  lemma OtherChain(p: Links, head: Node, chain: seq<Node>, m: nat, node: Node, l: nat, to: Node?)
    requires Linked(p, head, chain, m) && node in p && l < |p[node]|
    requires m != l || (node != head && node !in chain)
    ensures Linked(p[node := p[node][l := to]], head, chain, m)
  {
    var p' := p[node := p[node][l := to]];
    forall i | 0 <= i <= |chain| ensures LinksOn(p', head, chain, m, i) { assert LinksOn(p, head, chain, m, i); }
  }

  /** The publishing store splices the node in. */
  lemma SpliceLinked(p: Links, head: Node, chain: seq<Node>, l: nat, k: nat, node: Node)
    requires Linked(p, head, chain, l) && k <= |chain| && node in p && l < |p[node]| && node != head && node !in chain
    requires p[node][l] == After(chain, k) && forall i, j :: 0 <= i < j < |chain| ==> chain[i] != chain[j]
    ensures var prev := At(head, chain, k);
      prev in p && l < |p[prev]| && Linked(p[prev := p[prev][l := node]], head, Spliced(chain, k, node), l)
  {
    var prev := At(head, chain, k);
    assert LinksOn(p, head, chain, l, k);
    var p', chain' := p[prev := p[prev][l := node]], Spliced(chain, k, node);
    forall i | 0 <= i < |chain'|
      ensures chain'[i] == if i < k then chain[i] else if i == k then node else chain[i - 1]
    {
    }
    forall i | 0 <= i <= |chain'| ensures LinksOn(p', head, chain', l, i) {
      if i < k {
        assert LinksOn(p, head, chain, l, i);
      } else if i > k + 1 {
        assert LinksOn(p, head, chain, l, i - 1);
      }
    }
  }

  lemma AscendsDistinct(chain: seq<Node>)
    requires Ascends(chain)
    ensures forall i, j :: 0 <= i < j < |chain| ==> chain[i] != chain[j]
  {
    hide Before;
    BeforeIsOrder();
  }

  ghost predicate InNodes(chain: seq<Node>, nodes: set<Node>) {
    forall n :: n in chain ==> n in nodes
  }

  ghost predicate Within(chains: seq<seq<Node>>, l: nat) {
    0 < l < |chains| && forall n :: n in chains[l] ==> n in chains[l - 1]
  }

  /** Every level is linked in key order, holds nodes of the level below only, and is empty
      above the published height. */
  ghost predicate LevelsOk(p: Links, head: Node, chains: seq<seq<Node>>, nodes: set<Node>, maxHeight: nat) {
    && |chains| == MAX_HEIGHT && 1 <= maxHeight <= MAX_HEIGHT
    && (forall l :: 0 <= l < MAX_HEIGHT ==> InNodes(chains[l], nodes))
    && (forall l :: 0 <= l < MAX_HEIGHT ==> Ascends(chains[l]))
    && (forall l :: 0 <= l < MAX_HEIGHT ==> Linked(p, head, chains[l], l))
    && (forall l :: 0 < l < MAX_HEIGHT ==> Within(chains, l))
    && (forall l :: maxHeight <= l < MAX_HEIGHT ==> chains[l] == [])
  }

  /** A store to a node that is not linked at that level changes nothing for readers. */
  lemma PrepareOk(p: Links, head: Node, chains: seq<seq<Node>>, nodes: set<Node>, maxHeight: nat, node: Node, l: nat,
          to: Node?)
    requires LevelsOk(p, head, chains, nodes, maxHeight) && l < MAX_HEIGHT && node in p && l < |p[node]| && node != head
    requires node !in chains[l]
    ensures LevelsOk(p[node := p[node][l := to]], head, chains, nodes, maxHeight)
  {
    hide Linked, Ascends, Within, InNodes;
    forall m | 0 <= m < MAX_HEIGHT ensures Linked(p[node := p[node][l := to]], head, chains[m], m) {
      OtherChain(p, head, chains[m], m, node, l, to);
    }
  }

  /** The publishing store adds the node to one level and keeps all levels in shape. */
  lemma LinkOk(p: Links, head: Node, chains: seq<seq<Node>>, nodes: set<Node>, maxHeight: nat, node: Node, l: nat,
          k: nat)
    requires LevelsOk(p, head, chains, nodes, maxHeight) && l < maxHeight && node in nodes && node in p && l < |p[node]|
    requires node != head
    requires Fits(chains[l], k, node.key) && p[node][l] == After(chains[l], k) && (l > 0 ==> node in chains[l - 1])
    ensures var prev := At(head, chains[l], k);
      prev in p && l < |p[prev]|
        && LevelsOk(p[prev := p[prev][l := node]], head, chains[l := Spliced(chains[l], k, node)], nodes, maxHeight)
  {
    hide Linked, Ascends, Spliced, Before;
    var chain, prev := chains[l], At(head, chains[l], k);
    var chains' := chains[l := Spliced(chain, k, node)];
    SplicedAscends(chain, k, node);
    AscendsDistinct(chain);
    SpliceLinked(p, head, chain, l, k, node);
    SplicedNodes(chain, k, node);
    forall m | 0 <= m < MAX_HEIGHT ensures Linked(p[prev := p[prev][l := node]], head, chains'[m], m) {
      if m != l { OtherChain(p, head, chains[m], m, prev, l, node); }
    }
    forall m | 0 < m < MAX_HEIGHT ensures Within(chains', m) {
      assert Within(chains, m);
      forall n | n in chains'[m] ensures n in chains'[m - 1] {
        SplicedNode(chain, k, node, n);
        assert m == l ==> n in Spliced(chain, k, node);
        assert m != l ==> n in chains[m] && n in chains[m - 1];
      }
    }
    assert InNodes(chains'[l], nodes) by { assert InNodes(chain, nodes); }
  }

  lemma MoreNodes(p: Links, p': Links, head: Node, chain: seq<Node>, l: nat)
    requires Linked(p, head, chain, l) && forall n :: n in p ==> n in p' && p'[n] == p[n]
    ensures Linked(p', head, chain, l)
  {
    forall i | 0 <= i <= |chain| ensures LinksOn(p', head, chain, l, i) { assert LinksOn(p, head, chain, l, i); }
  }

  lemma SplicedNodes(chain: seq<Node>, k: nat, node: Node)
    requires k <= |chain|
    ensures forall n :: n in Spliced(chain, k, node) <==> n in chain || n == node
  {
    forall n | n in chain || n == node ensures n in Spliced(chain, k, node) {
      if n in chain {
        var i :| 0 <= i < |chain| && chain[i] == n;
        assert i < k ==> Spliced(chain, k, node)[i] == n;
        assert i >= k ==> Spliced(chain, k, node)[i + 1] == n;
      } else {
        assert Spliced(chain, k, node)[k] == n;
      }
    }
  }

  lemma SplicedNode(chain: seq<Node>, k: nat, node: Node, n: Node)
    requires k <= |chain|
    ensures n in Spliced(chain, k, node) <==> n in chain || n == node
  {
    SplicedNodes(chain, k, node);
  }

  lemma NewNodeOk(p: Links, p': Links, head: Node, chains: seq<seq<Node>>, nodes: set<Node>, nodes': set<Node>,
          maxHeight: nat)
    requires LevelsOk(p, head, chains, nodes, maxHeight) && nodes <= nodes'
    requires forall n :: n in p ==> n in p' && p'[n] == p[n]
    ensures LevelsOk(p', head, chains, nodes', maxHeight)
  {
    hide Linked, Ascends, Within;
    forall l | 0 <= l < MAX_HEIGHT ensures Linked(p', head, chains[l], l) { MoreNodes(p, p', head, chains[l], l); }
  }

  class SkipList {
    const head: Node
    var maxHeight: nat
    var size: nat
    ghost var chains: seq<seq<Node>>
    ghost var nodes: set<Node>

    ghost function Links(): Links
      reads this`nodes, nodes
    {
      map n | n in nodes :: n.next
    }

    ghost predicate Valid()
      reads this, nodes
    {
      && head in nodes && head.height == MAX_HEIGHT && (forall n :: n in nodes ==> |n.next| == n.height)
      && LevelsOk(Links(), head, chains, nodes, maxHeight)
    }

    /** What a reader that runs alongside can see. */
    ghost function Now(): Memory
      reads this, nodes
    {
      Memory(Links(), chains, nodes, maxHeight)
    }

    /** The entries reachable at level 0, in order. */
    ghost function Contents(): seq<Entry>
      reads this
      requires |chains| == MAX_HEIGHT
    {
      Keys(chains[0])
    }

    constructor ()
      ensures Valid() && fresh(nodes) && Contents() == [] && size == 0
    {
      var sentinel := new Node(Entry([], 0, Deletion, []), MAX_HEIGHT);
      head, maxHeight, size := sentinel, 1, 0;
      chains, nodes := seq(MAX_HEIGHT, i => []), {sentinel};
      new;
      forall l | 0 <= l < MAX_HEIGHT ensures Linked(Links(), head, chains[l], l) { }
    }

    // ------------------------------------------------------------- insert steps

    /** Publishing a greater height before anything is linked there is harmless. */
    method PublishHeight(h: nat)
      requires Valid() && maxHeight <= h <= MAX_HEIGHT
      modifies this`maxHeight
      ensures Valid() && maxHeight == h && InsertStep(head, old(Now()), Now())
    {
      hide Linked, Ascends;
      ghost var was := Now();
      maxHeight := h;
      assert Publish(was, Now());
    }

    /** A fresh node belongs to the list before any level knows it. */
    method NewNode(key: Entry, height: nat) returns (node: Node)
      requires Valid() && 1 <= height <= MAX_HEIGHT
      modifies this`nodes
      ensures Valid() && fresh(node) && node.key == key && node.height == height && nodes == old(nodes) + {node}
      ensures InsertStep(head, old(Now()), Now())
    {
      hide LevelsOk;
      ghost var was := Now();
      node := new Node(key, height);
      ghost var p := Links();
      assert p == was.p;
      nodes := nodes + {node};
      NewNodeOk(p, Links(), head, chains, old(nodes), nodes, maxHeight);
      assert Links() == p[node := node.next];
      assert Allocate(was, Now(), node);
    }

    /** The new node's own link, while readers cannot reach it at this level. */
    method PrepareLevel(node: Node, prev: Node, l: nat, ghost k: nat)
      requires Valid() && l < MAX_HEIGHT && node in nodes && node.height > l && node != head && node !in chains[l]
      requires k <= |chains[l]| && prev == At(head, chains[l], k)
      modifies node`next
      ensures Valid() && node.next == old(node.next)[l := After(chains[l], k)] && InsertStep(head, old(Now()), Now())
    {
      hide Ascends, Before;
      ghost var p, was := Links(), Now();
      assert LinksOn(p, head, chains[l], l, k);
      hide LevelsOk;
      PrepareOk(p, head, chains, nodes, maxHeight, node, l, After(chains[l], k));
      node.next := node.next[l := prev.next[l]];
      assert Links() == p[node := p[node][l := After(chains[l], k)]];
      assert Prepare(head, was, Now(), node, l, Now().p[node][l]);
    }

    /** The store that makes the node reachable at one more level. */
    method LinkLevel(node: Node, prev: Node, l: nat, ghost k: nat)
      requires Valid() && l < maxHeight && node in nodes && node.height > l && node != head
      requires k <= |chains[l]| && prev == At(head, chains[l], k) && Fits(chains[l], k, node.key)
      requires l > 0 ==> node in chains[l - 1]
      requires node.next[l] == After(chains[l], k)
      modifies prev`next, this`chains
      ensures Valid() && chains == old(chains)[l := Spliced(old(chains)[l], k, node)]
      ensures InsertStep(head, old(Now()), Now())
    {
      assert l < |chains|;
      hide Before, LevelsOk, Fits, Spliced;
      ghost var p, was := Links(), Now();
      LinkOk(p, head, chains, nodes, maxHeight, node, l, k);
      prev.next := prev.next[l := node];
      chains := chains[l := Spliced(chains[l], k, node)];
      assert Links() == p[prev := p[prev][l := node]];
      assert Link(head, was, Now(), node, l, k);
    }

    // ------------------------------------------------------------------ searching

    /** One load of a search. It moves right, or down, or stops on the node it has just read,
        which is then the first at level 0 that is not before the target. */
    method SearchStep(level: nat, x: Node, target: Entry, ghost k: nat) returns (right: bool, next: Node?)
      requires Valid() && level < MAX_HEIGHT && k <= |chains[level]| && x == At(head, chains[level], k)
      requires k > 0 ==> Before(x.key, target)
      ensures next == After(chains[level], k) && right == (next != null && Before(next.key, target))
      ensures right ==> k < |chains[level]| && next == At(head, chains[level], k + 1)
      ensures !right ==> SeekAt(chains[level], target, k)
    {
      hide Before, Ascends;
      assert LinksOn(Links(), head, chains[level], level, k);
      next := x.next[level];
      right := next != null && Before(next.key, target);
      if !right { StopIsSeek(chains[level], target, k); }
    }

    /** The first node not before the target, and at every level the last one before it. The
        search may start from any height published so far. */
    method FindGreaterOrEqual(target: Entry, top: nat) returns (found: Node?, prev: seq<Node>, ghost ks: seq<nat>)
      requires Valid() && 1 <= top <= MAX_HEIGHT
      ensures |prev| == top && |ks| == top
      ensures forall l :: 0 <= l < top ==> Splice(head, chains[l], target, prev[l], ks[l])
      ensures found == After(chains[0], ks[0])
    {
      hide Before, Ascends, Linked, SeekAt;
      var level: nat, x := top - 1, head;
      ghost var k: nat := 0;
      prev, ks := [], [];
      while true
        invariant level < top && k <= |chains[level]| && x == At(head, chains[level], k)
        invariant (k > 0 ==> Before(x.key, target))
        invariant |prev| == |ks| == top - 1 - level
        invariant forall l :: level < l < top ==>
          Splice(head, chains[l], target, prev[l - level - 1], ks[l - level - 1])
        decreases level, |chains[level]| - k
      {
        var right, next := SearchStep(level, x, target, k);
        if right {
          x, k := next, k + 1;
        } else {
          assert Splice(head, chains[level], target, x, k) by { SeekBound(chains[level], target, k); }
          prev, ks := [x] + prev, [k] + ks;
          if level == 0 { return next, prev, ks; }
          k := Lower(level, x, k);
          level := level - 1;
        }
      }
    }

    /** A node of one level is found on the level below. */
    lemma Lower(level: nat, x: Node, k: nat) returns (k': nat)
      requires Valid() && 0 < level < MAX_HEIGHT && k <= |chains[level]| && x == At(head, chains[level], k)
      ensures k' <= |chains[level - 1]| && x == At(head, chains[level - 1], k') && (k' > 0 ==> k > 0)
    {
      hide Ascends, Linked;
      k' := 0;
      if k > 0 {
        assert Within(chains, level) && x in chains[level];
        var i :| 0 <= i < |chains[level - 1]| && chains[level - 1][i] == x;
        k' := i + 1;
      }
    }

    // ------------------------------------------------------------------- inserting

    /** Where a node of the given height has to be spliced in. */
    method FindSplices(e: Entry, height: nat) returns (prev: seq<Node>, ghost ks: seq<nat>)
      requires Valid() && 1 <= height <= MAX_HEIGHT && |chains| == MAX_HEIGHT
      requires forall x :: x in Contents() ==> x.sn != e.sn
      ensures height <= |prev| == |ks| <= MAX_HEIGHT
      ensures forall l :: 0 <= l < |prev| ==> Ready(head, chains[l], e, prev[l], ks[l])
    {
      hide LevelsOk, Before, Splice, Ready, Keys;
      Shape();
      var found;
      found, prev, ks := FindGreaterOrEqual(e, maxHeight);
      while |prev| < height
        invariant |prev| == |ks| && maxHeight <= |prev| <= MAX_HEIGHT
        invariant forall l :: 0 <= l < |prev| ==> Splice(head, chains[l], e, prev[l], ks[l])
      {
        EmptyAbove(|prev|, e);
        prev, ks := prev + [head], ks + [0];
      }
      forall l | 0 <= l < |prev| ensures Ready(head, chains[l], e, prev[l], ks[l]) { NoTieReady(l, e, prev[l], ks[l]); }
    }

    /** Links the node from the bottom up, one publishing store per level. */
    method LinkNode(node: Node, prev: seq<Node>, ghost ks: seq<nat>)
      requires Valid() && |chains| == MAX_HEIGHT && 1 <= node.height <= maxHeight
      requires node.height <= |prev| == |ks| <= MAX_HEIGHT
      requires node in nodes && node != head && forall l :: 0 <= l < MAX_HEIGHT ==> node !in chains[l]
      requires forall l :: 0 <= l < |prev| ==> Ready(head, chains[l], node.key, prev[l], ks[l])
      modifies this`chains, nodes
      ensures Valid() && |chains| == MAX_HEIGHT && Grows(old(chains), chains)
      ensures forall l :: 0 <= l < |ks| ==> ks[l] <= |old(chains)[l]|
      ensures forall l :: 0 <= l < MAX_HEIGHT ==>
        chains[l] == if l < node.height then Spliced(old(chains)[l], ks[l], node) else old(chains)[l]
    {
      hide LevelsOk, Before, Ready, Spliced, Grows, InsertStep;
      ghost var was := chains;
      GrowsSelf(was);
      forall l | 0 <= l < |ks| ensures ks[l] <= |was[l]| { ReadyIs(head, was[l], node.key, prev[l], ks[l]); }
      for i := 0 to node.height
        invariant Valid() && |chains| == MAX_HEIGHT && Grows(was, chains)
        invariant forall l :: i <= l < MAX_HEIGHT ==> chains[l] == was[l]
        invariant forall l :: 0 <= l < i ==> chains[l] == Spliced(was[l], ks[l], node)
        invariant i > 0 ==> node in chains[i - 1]
      {
        ReadyIs(head, was[i], node.key, prev[i], ks[i]);
        ghost var before := chains;
        ReadyPrev(i, prev[i], ks[i]);
        PrepareLevel(node, prev[i], i, ks[i]);
        SplicedGrows(chains, i, ks[i], node);
        LinkLevel(node, prev[i], i, ks[i]);
        GrowsTrans(was, before, chains);
        SplicedNode(before[i], ks[i], node, node);
      }
    }

    lemma ReadyPrev(l: nat, prev: Node, k: nat)
      requires Valid() && l < MAX_HEIGHT && |chains| == MAX_HEIGHT && k <= |chains[l]| && prev == At(head, chains[l], k)
      ensures prev in nodes
    {
      hide LevelsOk;
      Shape();
    }

    /** Inserts a copy of the key. The random height is a parameter. */
    method Insert(e: Entry, height: nat)
      requires Valid() && 1 <= height <= MAX_HEIGHT && |chains| == MAX_HEIGHT
      requires forall x :: x in Contents() ==> x.sn != e.sn
      modifies this, nodes
      ensures Valid() && fresh(nodes - old(nodes)) && |chains| == MAX_HEIGHT && Grows(old(chains), chains)
      ensures Contents() == Add(old(Contents()), e) && size == old(size) + 1
      ensures maxHeight == if height > old(maxHeight) then height else old(maxHeight)
      ensures forall l :: 0 <= l < MAX_HEIGHT ==>
        Keys(chains[l]) == if l < height then Add(Keys(old(chains)[l]), e) else Keys(old(chains)[l])
    {
      hide LevelsOk, Before, Ready, Spliced, Add, Keys, Grows, SeekAt, Fits, InsertStep;
      Shape();
      ghost var was := chains;
      var prev, ks := FindSplices(e, height);
      if height > maxHeight { PublishHeight(height); }
      var node := NewNode(e, height);
      LinkNode(node, prev, ks);
      size := size + 1;
      forall l | 0 <= l < height ensures Keys(chains[l]) == Add(Keys(was[l]), e) {
        ReadyIs(head, was[l], e, prev[l], ks[l]);
        AddIsSplice(was[l], ks[l], node);
        SplicedIs(was[l], ks[l], node);
      }
    }

    /** An equal key is present exactly when the search stops on one. */
    method Contains(e: Entry) returns (present: bool)
      requires Valid() && |chains| == MAX_HEIGHT
      ensures present <==> exists x :: x in Contents() && SameKey(x, e)
    {
      hide LevelsOk, Before, SeekAt, Splice, SameKey, Keys;
      Shape();
      assert Ascends(chains[0]) by { BottomAscends(); }
      var found, prev, ks := FindGreaterOrEqual(e, maxHeight);
      SpliceSeeks(head, chains[0], e, prev[0], ks[0]);
      OnlyThere(chains[0], e, ks[0]);
      present := found != null && SameKey(found.key, e);
    }

    lemma BottomAscends()
      requires Valid()
      ensures |chains| == MAX_HEIGHT && Ascends(chains[0])
    {
      hide Linked, Ascends;
    }

    lemma ContentsSorted()
      requires Valid() && |chains| == MAX_HEIGHT
      ensures Sorted(Contents())
    {
      hide Before;
      assert Ascends(chains[0]);
    }

    lemma Shape()
      requires Valid()
      ensures |chains| == MAX_HEIGHT && 1 <= maxHeight <= MAX_HEIGHT
      ensures forall l, n :: 0 <= l < MAX_HEIGHT && n in chains[l] ==> n in nodes && n != head
    {
      hide Ascends;
      forall l, n | 0 <= l < MAX_HEIGHT && n in chains[l] ensures n in nodes && n != head {
        assert InNodes(chains[l], nodes) && Linked(Links(), head, chains[l], l);
      }
    }

    /** Above the published height a search finds nothing but the head. */
    lemma EmptyAbove(l: nat, e: Entry)
      requires Valid() && maxHeight <= l < MAX_HEIGHT
      ensures l < |chains| && Splice(head, chains[l], e, head, 0)
    {
      hide Linked, Ascends;
    }

    /** Every level's nodes are on the bottom level too. */
    lemma {:induction false} OnBottom(l: nat, n: Node)
      requires Valid() && l < MAX_HEIGHT && l < |chains| && n in chains[l]
      ensures n in chains[0]
      decreases l
    {
      hide Linked, Ascends;
      if l > 0 {
        assert Within(chains, l);
        OnBottom(l - 1, n);
      }
    }

    /** With no equal key around, the last node before a key is its splice point. */
    lemma NoTieReady(l: nat, e: Entry, prev: Node, k: nat)
      requires Valid() && l < MAX_HEIGHT && l < |chains| && Splice(head, chains[l], e, prev, k)
      requires |chains| == MAX_HEIGHT
      requires forall x :: x in Contents() ==> x.sn != e.sn
      ensures Ready(head, chains[l], e, prev, k)
    {
      hide LevelsOk, Before;
      forall i | k <= i < |chains[l]| ensures Before(e, chains[l][i].key) {
        OnBottom(l, chains[l][i]);
        KeyListed(chains[0], chains[l][i]);
        NoTie(chains[l][i].key, e);
      }
    }
  }

  ghost predicate Ready(head: Node, chain: seq<Node>, e: Entry, prev: Node, k: nat) {
    Fits(chain, k, e) && prev == At(head, chain, k) && SeekAt(chain, e, k)
  }

  lemma ReadyIs(head: Node, chain: seq<Node>, e: Entry, prev: Node, k: nat)
    requires Ready(head, chain, e, prev, k)
    ensures k <= |chain| && Fits(chain, k, e) && prev == At(head, chain, k) && SeekAt(chain, e, k)
  {
    hide Before;
  }

  lemma KeyListed(chain: seq<Node>, n: Node)
    requires n in chain
    ensures n.key in Keys(chain)
  {
    var i :| 0 <= i < |chain| && chain[i] == n;
    assert Keys(chain)[i] == n.key;
  }

  lemma SplicedIs(chain: seq<Node>, k: nat, node: Node)
    requires k <= |chain|
    ensures Spliced(chain, k, node) == chain[..k] + [node] + chain[k..]
  {
  }

  /** Splicing is sorted insertion. */
  lemma AddIsSplice(chain: seq<Node>, k: nat, node: Node)
    requires SeekAt(chain, node.key, k)
    ensures Keys(chain[..k] + [node] + chain[k..]) == Add(Keys(chain), node.key)
  {
    hide Add, Before;
    AddAt(Keys(chain), k, node.key);
    assert Keys(chain[..k] + [node] + chain[k..]) == Keys(chain)[..k] + [node.key] + Keys(chain)[k..];
  }

  lemma {:induction false} AddAt(es: seq<Entry>, k: nat, e: Entry)
    requires k <= |es| && (forall i :: 0 <= i < k ==> Before(es[i], e)) && (k < |es| ==> !Before(es[k], e))
    ensures Add(es, e) == es[..k] + [e] + es[k..]
    decreases k
  {
    hide Before;
    if k > 0 { AddAt(es[1..], k - 1, e); }
  }

  // ---------------------------------------------------------------- chains that grow

  /** Nodes only ever join levels. */
  ghost predicate Grows(a: seq<seq<Node>>, b: seq<seq<Node>>) {
    |a| == |b| && forall l, n :: 0 <= l < |a| && n in a[l] ==> n in b[l]
  }

  lemma GrowsSelf(a: seq<seq<Node>>)
    ensures Grows(a, a)
  {
  }

  lemma GrowsTrans(a: seq<seq<Node>>, b: seq<seq<Node>>, c: seq<seq<Node>>)
    requires Grows(a, b) && Grows(b, c)
    ensures Grows(a, c)
  {
  }

  lemma SplicedGrows(chains: seq<seq<Node>>, l: nat, k: nat, node: Node)
    requires l < |chains| && k <= |chains[l]|
    ensures Grows(chains, chains[l := Spliced(chains[l], k, node)])
  {
    hide Spliced;
    SplicedNodes(chains[l], k, node);
  }

  /** `k` nodes of the chain are before the target, and they come first. */
  ghost predicate SeekAt(chain: seq<Node>, target: Entry, k: nat) {
    && k <= |chain|
    && (forall i :: 0 <= i < k ==> Before(chain[i].key, target))
    && (forall i :: k <= i < |chain| ==> !Before(chain[i].key, target))
  }

  lemma SeekBound(chain: seq<Node>, target: Entry, k: nat)
    requires SeekAt(chain, target, k)
    ensures k <= |chain|
  {
  }

  /** `prev` is the last node of the chain before the target. */
  ghost predicate Splice(head: Node, chain: seq<Node>, target: Entry, prev: Node, k: nat) {
    SeekAt(chain, target, k) && prev == At(head, chain, k)
  }

  lemma StopIsSeek(chain: seq<Node>, target: Entry, k: nat)
    requires Ascends(chain) && k <= |chain| && (k > 0 ==> Before(chain[k - 1].key, target))
    requires (k < |chain| ==> !Before(chain[k].key, target))
    ensures SeekAt(chain, target, k)
  {
    hide Before;
    BeforeIsOrder();
  }

  // ------------------------------------------------- a search amid insert steps

  /** The list at one moment. */
  datatype Memory = Memory(p: Links, chains: seq<seq<Node>>, nodes: set<Node>, maxHeight: nat)

  datatype Reader = Running(level: nat, x: Node) | Stopped(found: Node?)

  ghost predicate Publish(a: Memory, b: Memory) {
    a.maxHeight <= b.maxHeight <= MAX_HEIGHT && b == a.(maxHeight := b.maxHeight)
  }

  ghost predicate Allocate(a: Memory, b: Memory, node: Node) {
    node !in a.p && node in b.p && b == a.(p := a.p[node := b.p[node]], nodes := a.nodes + {node})
  }

  ghost predicate Prepare(head: Node, a: Memory, b: Memory, node: Node, l: nat, to: Node?) {
    && l < |a.chains| && node in a.p && l < |a.p[node]| && node != head && node !in a.chains[l]
    && b == a.(p := a.p[node := a.p[node][l := to]])
  }

  ghost predicate Link(head: Node, a: Memory, b: Memory, node: Node, l: nat, k: nat) {
    && l < a.maxHeight && l < |a.chains| && node in a.nodes && node in a.p && l < |a.p[node]| && node != head
    && Fits(a.chains[l], k, node.key) && a.p[node][l] == After(a.chains[l], k) && (l > 0 ==> node in a.chains[l - 1])
    && var prev := At(head, a.chains[l], k);
       prev in a.p && l < |a.p[prev]|
         && b == a.(p := a.p[prev := a.p[prev][l := node]], chains := a.chains[l := Spliced(a.chains[l], k, node)])
  }

  /** One store of an insert. */
  ghost predicate InsertStep(head: Node, a: Memory, b: Memory) {
    || Publish(a, b)
    || (exists node :: node in b.p && Allocate(a, b, node))
    || (exists node, l: nat :: node in b.p && l < |b.p[node]| && Prepare(head, a, b, node, l, b.p[node][l]))
    || (exists node, l: nat, k: nat :: node in b.p && Link(head, a, b, node, l, k))
  }

  /** One load of a search. */
  ghost predicate ReadStep(m: Memory, r: Reader, r': Reader, target: Entry) {
    && r.Running? && r.x in m.p && r.level < |m.p[r.x]|
    && var next := m.p[r.x][r.level];
       if next != null && Before(next.key, target) then r' == Running(r.level, next)
       else if r.level > 0 then r' == Running(r.level - 1, r.x)
       else r' == Stopped(next)
  }

  ghost predicate MemoryOk(head: Node, m: Memory) {
    LevelsOk(m.p, head, m.chains, m.nodes, m.maxHeight)
  }

  lemma InsertStepOk(head: Node, a: Memory, b: Memory)
    requires MemoryOk(head, a) && InsertStep(head, a, b)
    ensures MemoryOk(head, b) && Grows(a.chains, b.chains)
  {
    hide Linked, Ascends, Within, InNodes, Fits, Spliced;
    if node :| node in b.p && Allocate(a, b, node) {
      NewNodeOk(a.p, b.p, head, a.chains, a.nodes, b.nodes, a.maxHeight);
    } else if node, l: nat :| node in b.p && l < |b.p[node]| && Prepare(head, a, b, node, l, b.p[node][l]) {
      PrepareOk(a.p, head, a.chains, a.nodes, a.maxHeight, node, l, b.p[node][l]);
    } else if node, l: nat, k: nat :| node in b.p && Link(head, a, b, node, l, k) {
      LinkOk(a.p, head, a.chains, a.nodes, a.maxHeight, node, l, k);
      FitsBound(a.chains[l], k, node.key);
      SplicedGrows(a.chains, l, k, node);
    }
  }

  lemma FitsBound(chain: seq<Node>, k: nat, key: Entry)
    requires Fits(chain, k, key)
    ensures k <= |chain|
  {
  }

  /** Where a search stands: on the head, or on a node of its level that is before the target. */
  ghost predicate Searching(head: Node, chains: seq<seq<Node>>, r: Reader, target: Entry) {
    r.Running? ==> r.level < |chains| && (r.x == head || (r.x in chains[r.level] && Before(r.x.key, target)))
  }

  /** What a search that stops right now must have found. */
  ghost predicate IsFirst(chains: seq<seq<Node>>, target: Entry, found: Node?) {
    |chains| > 0 && exists k: nat :: SeekAt(chains[0], target, k) && found == After(chains[0], k)
  }

  lemma ReadStepOk(head: Node, m: Memory, r: Reader, r': Reader, target: Entry)
    requires MemoryOk(head, m) && Searching(head, m.chains, r, target) && ReadStep(m, r, r', target)
    ensures Searching(head, m.chains, r', target) && (r'.Stopped? ==> IsFirst(m.chains, target, r'.found))
  {
    hide Before, InNodes;
    var chain := m.chains[r.level];
    assert Linked(m.p, head, chain, r.level) && Ascends(chain);
    var k: nat := 0;
    if r.x != head {
      var i :| 0 <= i < |chain| && chain[i] == r.x;
      k := i + 1;
    }
    assert LinksOn(m.p, head, chain, r.level, k);
    if r'.Stopped? {
      StopIsSeek(chain, target, k);
    } else if r.level > 0 {
      assert Within(m.chains, r.level);
    }
  }

  /** A search and an insert in any interleaving. */
  ghost predicate Interleaving(head: Node, run: seq<(Memory, Reader)>, target: Entry) {
    && run != [] && MemoryOk(head, run[0].0) && run[0].1.Running? && run[0].1.x == head && run[0].1.level < MAX_HEIGHT
    && forall i :: 0 < i < |run| ==> Moves(head, run[i - 1], run[i], target)
  }

  ghost predicate Moves(head: Node, a: (Memory, Reader), b: (Memory, Reader), target: Entry) {
    (InsertStep(head, a.0, b.0) && b.1 == a.1) || (a.0 == b.0 && ReadStep(a.0, a.1, b.1, target))
  }

  /** Whatever stores of inserts come between the loads of a search, from whatever height it
      started: the levels stay in shape, and when the search stops it returns the first node
      at level 0 that is not before its target, as of that moment. */
  lemma {:induction false} SearchAmidInserts(head: Node, run: seq<(Memory, Reader)>, target: Entry, i: nat)
    requires Interleaving(head, run, target) && i < |run|
    ensures MemoryOk(head, run[i].0) && Searching(head, run[i].0.chains, run[i].1, target)
    ensures i > 0 && run[i].1.Stopped? && !run[i - 1].1.Stopped? ==> IsFirst(run[i].0.chains, target, run[i].1.found)
    decreases i
  {
    hide MemoryOk, InsertStep, ReadStep, IsFirst, Before;
    if i == 0 {
      HasLevels(head, run[0].0);
    } else {
      SearchAmidInserts(head, run, target, i - 1);
      assert Moves(head, run[i - 1], run[i], target);
      if InsertStep(head, run[i - 1].0, run[i].0) && run[i].1 == run[i - 1].1 {
        InsertStepOk(head, run[i - 1].0, run[i].0);
      } else {
        ReadStepOk(head, run[i].0, run[i - 1].1, run[i].1, target);
      }
    }
  }

  lemma HasLevels(head: Node, m: Memory)
    requires MemoryOk(head, m)
    ensures |m.chains| == MAX_HEIGHT
  {
    hide Linked, Ascends, Within, InNodes;
  }

  // ------------------------------------------------------------------ the memtable

  /** MemTable: entries in a skip list, and a cursor over it. */
  class MemTable {
    const table: SkipList

    constructor ()
      ensures table.Valid() && fresh(table) && fresh(table.nodes) && |table.chains| == MAX_HEIGHT
      ensures table.Contents() == []
    {
      var list := new SkipList();
      list.Shape();
      table := list;
    }

    method Add(sn: nat, kind: Kind, key: Bytes, value: Bytes, height: nat)
      requires table.Valid() && |table.chains| == MAX_HEIGHT && 1 <= height <= MAX_HEIGHT
      requires forall x :: x in table.Contents() ==> x.sn != sn
      modifies table, table.nodes
      ensures table.Valid() && |table.chains| == MAX_HEIGHT && fresh(table.nodes - old(table.nodes))
      ensures table.Contents() == MemTables.Add(old(table.Contents()), Entry(key, sn, kind, value))
    {
      table.Insert(Entry(key, sn, kind, value), height);
    }

    /** The newest version of the key at or below `sn`, found by one seek. */
    method Get(key: Bytes, sn: nat) returns (r: Option<Entry>)
      requires table.Valid() && |table.chains| == MAX_HEIGHT
      ensures r == RunGet(table.Contents(), key, sn)
      ensures match r
        case Some(e) => IsNewest(e, SetOf(table.Contents()), key, sn)
        case None => NoHit(SetOf(table.Contents()), key, sn)
    {
      hide LevelsOk, SeekIndex, Before, SeekAt, Splice;
      table.Shape();
      table.ContentsSorted();
      RunGetIsNewest(table.Contents(), key, sn);
      var found, prev, ks := table.FindGreaterOrEqual(LookupKey(key, sn), table.maxHeight);
      SpliceSeeks(table.head, table.chains[0], LookupKey(key, sn), prev[0], ks[0]);
      SeekKeys(table.chains[0], LookupKey(key, sn), ks[0]);
      if found == null || found.key.key != key { return None; }
      r := Some(found.key);
    }
  }

  lemma SpliceSeeks(head: Node, chain: seq<Node>, target: Entry, prev: Node, k: nat)
    requires Splice(head, chain, target, prev, k)
    ensures SeekAt(chain, target, k)
  {
    hide SeekAt, Before;
  }

  /** If an equal key is in the chain at all, it is where the search stops. */
  lemma OnlyThere(chain: seq<Node>, e: Entry, k: nat)
    requires Ascends(chain) && SeekAt(chain, e, k)
    ensures k <= |chain|
    ensures ((exists x :: x in Keys(chain) && SameKey(x, e)) <==> k < |chain| && SameKey(chain[k].key, e))
  {
    hide Before, SameKey;
    SameKeyBefore();
    assert forall j :: k < j < |chain| ==> Before(chain[k].key, chain[j].key);
    if x :| x in Keys(chain) && SameKey(x, e) {
      var i :| 0 <= i < |chain| && chain[i].key == x;
      assert i == k;
    }
    if k < |chain| && SameKey(chain[k].key, e) { KeyListed(chain, chain[k]); }
  }

  lemma SeekKeys(chain: seq<Node>, target: Entry, k: nat)
    requires SeekAt(chain, target, k)
    ensures k <= |chain| && SeekIndex(Keys(chain), target) == k
  {
    hide Before, SeekIndex;
    SeekUnique(Keys(chain), target, k);
  }

  /** The skip list's cursor. */
  class Cursor {
    const list: SkipList
    var node: Node?

    constructor (list: SkipList)
      ensures this.list == list && node == null
    {
      this.list, node := list, null;
    }

    /** The cursor stands on entry `i` of the contents, or past the last one. */
    ghost predicate IsAt(i: nat)
      reads this, list
    {
      |list.chains| == MAX_HEIGHT && i <= |list.chains[0]| && node == After(list.chains[0], i)
    }

    method SeekToFirst()
      requires list.Valid()
      modifies this
      ensures IsAt(0)
    {
      hide Ascends, Before;
      assert LinksOn(list.Links(), list.head, list.chains[0], 0, 0);
      node := list.head.next[0];
    }

    method Next(ghost i: nat)
      requires list.Valid() && IsAt(i) && node != null
      modifies this
      ensures IsAt(i + 1)
    {
      hide Ascends, Before;
      assert LinksOn(list.Links(), list.head, list.chains[0], 0, i + 1);
      node := node.next[0];
    }

    method Seek(target: Entry)
      requires list.Valid() && |list.chains| == MAX_HEIGHT
      modifies this
      ensures IsAt(SeekIndex(list.Contents(), target))
    {
      hide LevelsOk, SeekIndex, Before, SeekAt, Splice;
      list.Shape();
      var found, prev, ks := list.FindGreaterOrEqual(target, list.maxHeight);
      SpliceSeeks(list.head, list.chains[0], target, prev[0], ks[0]);
      SeekKeys(list.chains[0], target, ks[0]);
      node := found;
    }
  }

  // ------------------------------------------------------------------ framed entries

  /** How an entry is framed in the arena: both parts length-prefixed. */
  function Framed(e: Entry): Bytes {
    LengthPrefixed(IKey(e)) + LengthPrefixed(e.value)
  }

  /** A frame gives back its internal key and value, and a seek target frames like an entry
      with an empty value. */
  lemma FramedRoundTrip(e: Entry)
    requires Encodable(e)
    ensures GetLengthPrefixed(Framed(e), 0) == Some((IKey(e), 4 + |IKey(e)|))
    ensures GetLengthPrefixed(Framed(e), 4 + |IKey(e)|) == Some((e.value, |Framed(e)|))
    ensures e.value == [] ==> Framed(e) == LengthPrefixed(IKey(e)) + Fixed32(0)
  {
    hide IKey, Fixed32, GetLengthPrefixed;
    var s, a, b := Framed(e), LengthPrefixed(IKey(e)), LengthPrefixed(e.value);
    assert s[0..|s|] == s;
    HoldsConcat(s, 0, a, b);
    LengthPrefixedRoundTrip(s, 0, IKey(e));
    LengthPrefixedRoundTrip(s, |a|, e.value);
  }
}
