/** Blocks of the track network held in an arena, and reachability along
  * neighbour edges. A `Block` object of the Java program is an id here; the
  * arena maps every id that exists to its variant and its neighbour ids. */
module Graph {

  type BlockId = nat

  /** The orientation tag of a point; it is carried along and never inspected. */
  datatype Orientation = Up | Down

  /** The two block variants: a track section and a point (switch). */
  datatype Kind = Section | Point(orientation: Orientation)

  /** One block: its variant and the ids of its neighbours. */
  datatype Block = Block(kind: Kind, neighbours: set<BlockId>) {

    /** `deleteBlock(b)`: forget `b` as a neighbour; no effect on `b` itself. */
    function DeleteBlock(b: BlockId): (r: Block)
      ensures r.kind == kind
      ensures b !in r.neighbours
      ensures forall x :: x in neighbours && x != b ==> x in r.neighbours
      ensures r.neighbours <= neighbours
    {
      this.(neighbours := neighbours - {b})
    }
  }

  /** Every block in existence, by id. */
  type Arena = map<BlockId, Block>

  /** Every neighbour id names a block that exists. */
  ghost predicate Closed(a: Arena)
  {
    forall x :: x in a ==> a[x].neighbours <= a.Keys
  }

  /** Among the blocks of `live` the neighbour relation is mutual, and a block
    * of `live` lists only blocks of `live`. Blocks outside `live` (a removed
    * block keeps its old neighbour list) may list anything. */
  ghost predicate MutualOn(a: Arena, live: set<BlockId>)
  {
    && live <= a.Keys
    && forall x, y :: x in live && y in a[x].neighbours ==> y in live && x in a[y].neighbours
  }

  /** `p` is a non-empty walk along neighbour edges that never enters `avoid`. */
  ghost predicate IsWalk(a: Arena, p: seq<BlockId>, avoid: set<BlockId>)
  {
    && |p| > 0
    && (forall i :: 0 <= i < |p| ==> p[i] in a && p[i] !in avoid)
    && (forall i :: 0 <= i < |p| - 1 ==> p[i + 1] in a[p[i]].neighbours)
  }

  /** Some walk avoiding `avoid` leads from `x` to `y`. */
  ghost predicate Reaches(a: Arena, x: BlockId, y: BlockId, avoid: set<BlockId>)
  {
    exists p :: |p| > 0 && IsWalk(a, p, avoid) && p[0] == x && p[|p| - 1] == y
  }

  /** The blocks reachable from `root` without entering `avoid`. */
  ghost function Reach(a: Arena, root: BlockId, avoid: set<BlockId>): set<BlockId>
  {
    set x | x in a && Reaches(a, root, x, avoid)
  }

  /** Every owned block reaches every other owned block. */
  ghost predicate Connected(a: Arena, owned: set<BlockId>)
  {
    forall x, y :: x in owned && y in owned ==> Reaches(a, x, y, {})
  }

  /** A block outside `avoid` reaches itself by the one-block walk. */
  lemma ReachSelf(a: Arena, root: BlockId, avoid: set<BlockId>)
    requires root in a && root !in avoid
    ensures root in Reach(a, root, avoid)
  {
    assert IsWalk(a, [root], avoid);
  }

  /** Whatever lies beyond `avoid` around a reachable block is reachable too:
    * the reachable set together with `avoid` is closed under neighbours. */
  lemma ReachClosed(a: Arena, root: BlockId, avoid: set<BlockId>)
    requires Closed(a)
    ensures forall x, y :: x in Reach(a, root, avoid) && y in a[x].neighbours ==>
              y in avoid || y in Reach(a, root, avoid)
  {
    forall x, y | x in Reach(a, root, avoid) && y in a[x].neighbours && y !in avoid
      ensures y in Reach(a, root, avoid)
    {
      var p :| |p| > 0 && IsWalk(a, p, avoid) && p[0] == root && p[|p| - 1] == x;
      var q := p + [y];
      assert q[|q| - 2] == x;
      assert IsWalk(a, q, avoid);
    }
  }

  /** A block reachable from a neighbour `n` of `root` while avoiding a superset
    * of `avoid` is reachable from `root` while avoiding `avoid`. */
  lemma ReachFromNeighbour(a: Arena, root: BlockId, n: BlockId, avoid: set<BlockId>, avoid': set<BlockId>)
    requires root in a && root !in avoid
    requires n in a[root].neighbours
    requires avoid <= avoid'
    ensures Reach(a, n, avoid') <= Reach(a, root, avoid)
  {
    forall x | x in Reach(a, n, avoid')
      ensures x in Reach(a, root, avoid)
    {
      var p :| |p| > 0 && IsWalk(a, p, avoid') && p[0] == n && p[|p| - 1] == x;
      var q := [root] + p;
      assert forall i :: 1 <= i < |q| ==> q[i] == p[i - 1];
      assert IsWalk(a, q, avoid);
    }
  }

  /** Every block of a walk from inside `s` lies in `s`, when `s` is closed under
    * the neighbours of its blocks outside `avoid`. */
  lemma {:induction false} WalkStaysInside(a: Arena, p: seq<BlockId>, avoid: set<BlockId>, s: set<BlockId>, k: nat)
    requires IsWalk(a, p, avoid) && p[0] in s
    requires forall x :: x in s && x !in avoid && x in a ==> a[x].neighbours <= s
    requires k < |p|
    ensures p[k] in s
  {
    if k > 0 {
      WalkStaysInside(a, p, avoid, s, k - 1);
      assert p[k] in a[p[k - 1]].neighbours;
    }
  }

  /** A set holding `root` and closed under the neighbours of its blocks outside
    * `avoid` holds everything reachable from `root` avoiding `avoid`. */
  lemma ClosedContainsReach(a: Arena, root: BlockId, avoid: set<BlockId>, s: set<BlockId>)
    requires root in s
    requires forall x :: x in s && x !in avoid && x in a ==> a[x].neighbours <= s
    ensures Reach(a, root, avoid) <= s
  {
    forall x | x in Reach(a, root, avoid)
      ensures x in s
    {
      var p :| |p| > 0 && IsWalk(a, p, avoid) && p[0] == root && p[|p| - 1] == x;
      WalkStaysInside(a, p, avoid, s, |p| - 1);
    }
  }

  /** Walks compose: `x` reaches `y` and `y` reaches `z` give `x` reaches `z`. */
  lemma ReachesTransitive(a: Arena, x: BlockId, y: BlockId, z: BlockId, avoid: set<BlockId>)
    requires Reaches(a, x, y, avoid) && Reaches(a, y, z, avoid)
    ensures Reaches(a, x, z, avoid)
  {
    var p :| |p| > 0 && IsWalk(a, p, avoid) && p[0] == x && p[|p| - 1] == y;
    var q :| |q| > 0 && IsWalk(a, q, avoid) && q[0] == y && q[|q| - 1] == z;
    var w := p + q[1..];
    assert forall i :: |p| <= i < |w| ==> w[i] == q[i - |p| + 1];
    assert forall i :: 0 <= i < |w| - 1 ==> w[i + 1] in a[w[i]].neighbours by {
      forall i | 0 <= i < |w| - 1
        ensures w[i + 1] in a[w[i]].neighbours
      {
        if i == |p| - 1 {
          assert w[i] == y == q[0] && w[i + 1] == q[1];
        }
      }
    }
    assert IsWalk(a, w, avoid);
  }

  /** Reversing every edge of a walk through `live` gives a walk, when the
    * relation is mutual there. */
  lemma {:induction false} ReversedWalk(a: Arena, live: set<BlockId>, p: seq<BlockId>, avoid: set<BlockId>)
    requires MutualOn(a, live)
    requires IsWalk(a, p, avoid)
    requires forall i :: 0 <= i < |p| ==> p[i] in live
    ensures Reaches(a, p[|p| - 1], p[0], avoid)
  {
    if |p| == 1 {
      assert IsWalk(a, [p[0]], avoid);
    } else {
      var p' := p[..|p| - 1];
      assert IsWalk(a, p', avoid);
      ReversedWalk(a, live, p', avoid);
      var last := p[|p| - 1];
      var prev := p[|p| - 2];
      assert last in a[prev].neighbours && prev in live;
      assert IsWalk(a, [last, prev], avoid);
      ReachesTransitive(a, last, prev, p[0], avoid);
    }
  }

  /** Where the relation is mutual, reachability from a block of `live` is
    * symmetric. */
  lemma ReachesSymmetric(a: Arena, live: set<BlockId>, x: BlockId, y: BlockId, avoid: set<BlockId>)
    requires MutualOn(a, live) && x in live
    requires Reaches(a, x, y, avoid)
    ensures Reaches(a, y, x, avoid)
  {
    var p :| |p| > 0 && IsWalk(a, p, avoid) && p[0] == x && p[|p| - 1] == y;
    forall i | 0 <= i < |p|
      ensures p[i] in live
    {
      WalkStaysInside(a, p, avoid, live, i);
    }
    ReversedWalk(a, live, p, avoid);
  }

  /** Where the relation is mutual the choice of root does not matter: every
    * owned block is reachable from one owned root exactly when the owned blocks
    * are connected. */
  lemma RootIrrelevant(a: Arena, live: set<BlockId>, owned: set<BlockId>, root: BlockId)
    requires MutualOn(a, live)
    requires root in owned && owned <= live
    ensures owned <= Reach(a, root, {}) <==> Connected(a, owned)
  {
    if owned <= Reach(a, root, {}) {
      forall x, y | x in owned && y in owned
        ensures Reaches(a, x, y, {})
      {
        ReachesSymmetric(a, live, root, x, {});
        ReachesTransitive(a, x, root, y, {});
      }
    }
  }
}
