/** `SimpleNetwork`: the set of blocks a network owns, over the arena of all
  * blocks, with insertion, removal with neighbour detachment, the block
  * factories and the connectivity check. */
module Network {
  import opened Graph

  /** The arena after every neighbour of `b` has forgotten `b`. */
  ghost function Detached(a: Arena, b: BlockId): (r: Arena)
    requires b in a
    ensures r.Keys == a.Keys
    ensures forall x :: x in a ==> r[x].kind == a[x].kind
    ensures forall x :: x in a[b].neighbours && x in a ==> r[x].neighbours == a[x].neighbours - {b}
    ensures forall x :: x in a && x !in a[b].neighbours ==> r[x] == a[x]
  {
    map x | x in a :: if x in a[b].neighbours then a[x].DeleteBlock(b) else a[x]
  }

  /** Where the relation is mutual, detaching `b` leaves no block of `live`
    * listing `b`. */
  lemma DetachedSeversAllEdges(a: Arena, b: BlockId, live: set<BlockId>)
    requires b in a && MutualOn(a, live)
    ensures forall x :: x in live ==> b !in Detached(a, b)[x].neighbours
  {
    forall x | x in live
      ensures b !in Detached(a, b)[x].neighbours
    {
      if b in a[x].neighbours {
        assert x in a[b].neighbours;
      }
    }
  }

  /** Detaching `b` keeps its own neighbour list, except a self-reference. */
  lemma DetachedKeepsOwnNeighbours(a: Arena, b: BlockId)
    requires b in a
    ensures Detached(a, b)[b].neighbours == a[b].neighbours - {b}
  {
    if b !in a[b].neighbours {
      assert a[b].neighbours - {b} == a[b].neighbours;
    }
  }

  /** Detaching `b` keeps the relation mutual on the other blocks of `live`,
    * although `b` itself still lists its old neighbours. */
  lemma DetachedStaysMutual(a: Arena, b: BlockId, live: set<BlockId>)
    requires b in a && MutualOn(a, live)
    ensures MutualOn(Detached(a, b), live - {b})
  {
    var d := Detached(a, b);
    DetachedSeversAllEdges(a, b, live);
    forall x, y | x in live - {b} && y in d[x].neighbours
      ensures y in live - {b} && x in d[y].neighbours
    {
      assert y in a[x].neighbours;
    }
  }

  /** Where the relation is mutual, once `b` is detached no walk from another
    * block of `live` ever arrives at `b`. */
  lemma DetachedUnreachable(a: Arena, b: BlockId, live: set<BlockId>, root: BlockId)
    requires b in a && MutualOn(a, live)
    requires root in live && root != b
    ensures b !in Reach(Detached(a, b), root, {})
  {
    DetachedStaysMutual(a, b, live);
    ClosedContainsReach(Detached(a, b), root, {}, live - {b});
  }

  /** A new block with no neighbours joins the blocks where the relation is
    * mutual. */
  lemma IsolatedBlockKeepsMutual(a: Arena, x: BlockId, k: Kind, live: set<BlockId>)
    requires MutualOn(a, live) && x !in a
    ensures MutualOn(a[x := Block(k, {})], live + {x})
  {
  }

  class SimpleNetwork {
    /** The blocks in existence (the Java heap of `Block` objects), by id. */
    var arena: Arena
    /** The field `blocks`: the ids of the blocks this network owns. */
    var blocks: set<BlockId>
    /** Every id below this one has been handed out. */
    var nextId: nat
    /** The blocks in existence that no `RemoveBlock` has detached. */
    ghost var live: set<BlockId>

    ghost predicate Valid()
      reads this
    {
      && blocks <= arena.Keys
      && Closed(arena)
      && (forall x :: x in arena ==> x < nextId)
    }

    /** The neighbour relation is mutual among the blocks not removed, and none
      * of them lists a removed block. */
    ghost predicate Mutual()
      reads this
    {
      MutualOn(arena, live)
    }

    /** `new SimpleNetwork()`: no blocks. */
    constructor ()
      ensures Valid() && Mutual()
      ensures blocks == {} && arena == map[] && live == {}
    {
      arena := map[];
      blocks := {};
      nextId := 0;
      live := {};
    }

    /** `new Point(o)` or `new Section()`: a fresh block with no neighbours,
      * not owned by the network yet. */
    method NewBlock(kind: Kind) returns (b: BlockId)
      requires Valid()
      modifies this`arena, this`nextId, this`live
      ensures Valid()
      ensures b !in old(arena)
      ensures arena == old(arena)[b := Block(kind, {})]
      ensures blocks == old(blocks)
      ensures live == old(live) + {b}
      ensures old(Mutual()) ==> Mutual()
    {
      b := nextId;
      nextId := nextId + 1;
      if Mutual() {
        IsolatedBlockKeepsMutual(arena, b, kind, live);
      }
      arena := arena[b := Block(kind, {})];
      live := live + {b};
    }

    /** `addBlock`: set insertion; a block already owned changes nothing. */
    method AddBlock(b: BlockId) returns (self: SimpleNetwork)
      requires Valid() && b in arena
      modifies this`blocks
      ensures Valid()
      ensures self == this
      ensures blocks == old(blocks) + {b}
      ensures b in old(blocks) ==> blocks == old(blocks)
    {
      if b !in blocks {
        blocks := blocks + {b};
      }
      self := this;
    }

    /** `removeBlock`: every neighbour of `b` forgets `b`, then `b` leaves the
      * owned set; `b`'s own neighbour set is left as it was. */
    method RemoveBlock(b: BlockId) returns (self: SimpleNetwork)
      requires Valid() && b in arena
      modifies this`arena, this`blocks, this`live
      ensures Valid()
      ensures self == this
      ensures blocks == old(blocks) - {b}
      ensures arena == Detached(old(arena), b)
      ensures live == old(live) - {b}
      ensures old(Mutual()) ==> Mutual()
    {
      if Mutual() {
        DetachedStaysMutual(arena, b, live);
      }
      var todo := arena[b].neighbours;
      ghost var neighbours := todo;
      while todo != {}
        invariant todo <= neighbours
        invariant blocks == old(blocks) && nextId == old(nextId) && live == old(live)
        invariant arena.Keys == old(arena).Keys
        invariant forall x :: x in arena ==>
          arena[x] == if x in neighbours - todo then old(arena)[x].DeleteBlock(b) else old(arena)[x]
        decreases todo
      {
        var n :| n in todo;
        arena := arena[n := arena[n].DeleteBlock(b)];
        todo := todo - {n};
      }
      blocks := blocks - {b};
      live := live - {b};
      self := this;
    }

    /** `makePoint`: a fresh point, now owned. */
    method MakePoint(orientation: Orientation) returns (p: BlockId)
      requires Valid()
      modifies this
      ensures Valid()
      ensures p !in old(arena)
      ensures arena == old(arena)[p := Block(Point(orientation), {})]
      ensures blocks == old(blocks) + {p} && |blocks| == |old(blocks)| + 1
      ensures live == old(live) + {p}
      ensures old(Mutual()) ==> Mutual()
    {
      p := NewBlock(Point(orientation));
      blocks := blocks + {p};
    }

    /** `makeSection`: a fresh section, now owned. */
    method MakeSection() returns (s: BlockId)
      requires Valid()
      modifies this
      ensures Valid()
      ensures s !in old(arena)
      ensures arena == old(arena)[s := Block(Section, {})]
      ensures blocks == old(blocks) + {s} && |blocks| == |old(blocks)| + 1
      ensures live == old(live) + {s}
      ensures old(Mutual()) ==> Mutual()
    {
      s := NewBlock(Section);
      blocks := blocks + {s};
    }

    /** The wiring callers do after creating blocks: `x` and `y` become
      * neighbours of each other. */
    method Connect(x: BlockId, y: BlockId)
      requires Valid() && x in arena && y in arena
      modifies this`arena
      ensures Valid()
      ensures var a := old(arena)[x := old(arena)[x].(neighbours := old(arena)[x].neighbours + {y})];
        arena == a[y := a[y].(neighbours := a[y].neighbours + {x})]
      ensures old(Mutual()) && x in live && y in live ==> Mutual()
    {
      arena := arena[x := arena[x].(neighbours := arena[x].neighbours + {y})];
      arena := arena[y := arena[y].(neighbours := arena[y].neighbours + {x})];
    }

    /** `traverse(root, blocksDone)`: depth-first search with a visited-set
      * guard; the result is the visited set plus everything reachable from
      * `root` without passing through it. */
    method Traverse(root: BlockId, done: set<BlockId>) returns (r: set<BlockId>)
      requires Valid() && root in arena
      ensures r == done + Reach(arena, root, done)
      decreases arena.Keys - done
    {
      if root in done {
        return done;
      }
      ReachSelf(arena, root, done);
      r := done + {root};
      var todo := arena[root].neighbours;
      while todo != {}
        invariant todo <= arena[root].neighbours
        invariant done + {root} <= r <= done + Reach(arena, root, done)
        invariant forall x :: x in r && x !in done && x != root ==> arena[x].neighbours <= r
        invariant arena[root].neighbours - todo <= r
        decreases todo
      {
        var n :| n in todo;
        assert arena.Keys - r < arena.Keys - done by {
          assert root in arena.Keys - done && root !in arena.Keys - r;
        }
        ghost var before := r;
        r := Traverse(n, r);
        ReachFromNeighbour(arena, root, n, done, before);
        ReachClosed(arena, n, before);
        if n !in before {
          ReachSelf(arena, n, before);
        }
        todo := todo - {n};
      }
      ClosedContainsReach(arena, root, done, r);
    }

    /** `traverse()`: the traversal from the first owned block, or nothing for
      * an empty network. */
    method TraverseAll() returns (t: set<BlockId>)
      requires Valid()
      ensures blocks == {} ==> t == {}
      ensures blocks != {} ==> exists root :: root in blocks && t == Reach(arena, root, {})
    {
      t := {};
      if blocks != {} {
        var root :| root in blocks;
        t := Traverse(root, t);
      }
    }

    /** `isValid`: every owned block was reached by the traversal. Which root
      * the traversal starts from is not fixed; when the relation is mutual and
      * no owned block has been removed, the answer is connectivity whichever
      * root it is. */
    method IsValid() returns (v: bool)
      requires Valid()
      ensures blocks == {} ==> v
      ensures blocks != {} ==> exists root :: root in blocks && (v <==> blocks <= Reach(arena, root, {}))
      ensures Mutual() && blocks <= live ==> (v <==> Connected(arena, blocks))
    {
      var traversed := TraverseAll();
      v := blocks <= traversed;
      if blocks != {} && Mutual() && blocks <= live {
        var root :| root in blocks && traversed == Reach(arena, root, {});
        RootIrrelevant(arena, live, blocks, root);
      }
    }
  }

  /** Two blocks listing each other are connected. */
  lemma LinkedPairConnected(a: Arena, x: BlockId, y: BlockId)
    requires x in a && y in a && y in a[x].neighbours && x in a[y].neighbours
    ensures Connected(a, {x, y})
  {
    assert IsWalk(a, [x, y], {}) && IsWalk(a, [y, x], {});
    assert IsWalk(a, [x], {}) && IsWalk(a, [y], {});
  }

  /** A block that nothing lists is not reached from a pair that only lists
    * each other. */
  lemma PairDoesNotReach(a: Arena, x: BlockId, y: BlockId, z: BlockId)
    requires x in a && y in a && a[x].neighbours == {y} && a[y].neighbours == {x}
    requires z != x && z != y
    ensures !Reaches(a, x, z, {})
  {
    ClosedContainsReach(a, x, {}, {x, y});
  }

  /** An empty network is valid; two connected sections are valid; a point
    * wired to nothing makes the network invalid. */
  method ConnectivityScenario()
  {
    var net := new SimpleNetwork();
    var v := net.IsValid();
    assert v;

    var s1 := net.MakeSection();
    var s2 := net.MakeSection();
    net.Connect(s1, s2);
    LinkedPairConnected(net.arena, s1, s2);
    v := net.IsValid();
    assert net.blocks == {s1, s2};
    assert v;

    var p := net.MakePoint(Down);
    PairDoesNotReach(net.arena, s1, s2, p);
    v := net.IsValid();
    assert !v;
  }

  /** Removing a leaf `b` hanging off `y` of a linked pair `x`, `y` leaves the
    * pair listing only each other. */
  lemma DetachedLeaf(a: Arena, x: BlockId, y: BlockId, b: BlockId)
    requires x in a && y in a && b in a && b != x && b != y && x != y
    requires a[x].neighbours == {y} && a[y].neighbours == {x, b} && a[b].neighbours == {y}
    ensures Detached(a, b)[x].neighbours == {y} && Detached(a, b)[y].neighbours == {x}
  {
  }

  /** A new network of two linked sections with a point hanging off the
    * second. */
  method WiredNetwork() returns (net: SimpleNetwork, s1: BlockId, s2: BlockId, p: BlockId)
    ensures fresh(net) && net.Valid() && net.Mutual()
    ensures net.blocks == {s1, s2, p} <= net.live
    ensures s1 != s2 && p != s1 && p != s2
    ensures net.arena[s1].neighbours == {s2}
    ensures net.arena[s2].neighbours == {s1, p}
    ensures net.arena[p].neighbours == {s2}
  {
    net := new SimpleNetwork();
    s1 := net.MakeSection();
    s2 := net.MakeSection();
    net.Connect(s1, s2);
    p := net.MakePoint(Down);
    net.Connect(s2, p);
  }

  /** A point wired to a pair of sections and then removed leaves the pair
    * connected, and the network valid again. */
  method RemovalScenario()
  {
    var net, s1, s2, p := WiredNetwork();
    DetachedLeaf(net.arena, s1, s2, p);
    var self := net.RemoveBlock(p);
    assert net.blocks == {s1, s2} <= net.live;
    LinkedPairConnected(net.arena, s1, s2);
    var v := net.IsValid();
    assert v;
  }
}
