/** Routes and the rule a sequence of routes must obey to form a journey. */
module Routes {

  /** A signal, by identity. */
  type SignalId = nat

  /** The travel direction a route carries. */
  datatype Direction = Up | Down

  /** A route: from a source signal to a destination signal, in one direction. */
  datatype Route = Route(source: SignalId, destination: SignalId, direction: Direction)

  /** `b` may follow `a`: it starts where `a` ends and runs the same way. */
  predicate Joins(a: Route, b: Route)
  {
    a.destination == b.source && a.direction == b.direction
  }

  /** Every consecutive pair of routes joins. */
  predicate ValidPath(p: seq<Route>)
  {
    forall i :: 0 <= i < |p| - 1 ==> Joins(p[i], p[i + 1])
  }

  /** `validPath`: the pairwise scan with an early exit at the first pair whose
    * destination and source differ or whose directions differ. */
  method CheckPath(p: seq<Route>) returns (ok: bool)
    ensures ok <==> ValidPath(p)
  {
    var i := 0;
    while i < |p| - 1
      invariant 0 <= i <= if |p| == 0 then 0 else |p| - 1
      invariant forall k :: 0 <= k < i ==> Joins(p[k], p[k + 1])
    {
      var a := p[i];
      var b := p[i + 1];
      if a.destination != b.source {
        return false;
      }
      if a.direction != b.direction {
        return false;
      }
      i := i + 1;
    }
    return true;
  }

  /** A path of no route or of one route has no pair to check. */
  lemma ShortPathValid(p: seq<Route>)
    requires |p| <= 1
    ensures ValidPath(p)
  {
  }

  /** Appending keeps a path valid exactly when both parts are valid and the
    * seam joins. */
  lemma ValidPathAppend(p: seq<Route>, q: seq<Route>)
    ensures ValidPath(p + q) <==>
      ValidPath(p) && ValidPath(q) && (p != [] && q != [] ==> Joins(p[|p| - 1], q[0]))
  {
    var w := p + q;
    if ValidPath(w) {
      forall i | 0 <= i < |p| - 1
        ensures Joins(p[i], p[i + 1])
      {
        assert w[i] == p[i] && w[i + 1] == p[i + 1];
      }
      forall i | 0 <= i < |q| - 1
        ensures Joins(q[i], q[i + 1])
      {
        assert w[|p| + i] == q[i] && w[|p| + i + 1] == q[i + 1];
      }
      if p != [] && q != [] {
        assert w[|p| - 1] == p[|p| - 1] && w[|p|] == q[0];
      }
    }
    if ValidPath(p) && ValidPath(q) && (p != [] && q != [] ==> Joins(p[|p| - 1], q[0])) {
      forall i | 0 <= i < |w| - 1
        ensures Joins(w[i], w[i + 1])
      {
        if i >= |p| {
          assert w[i] == q[i - |p|] && w[i + 1] == q[i - |p| + 1];
        } else if i == |p| - 1 {
          assert w[i] == p[|p| - 1] && w[i + 1] == q[0];
        } else {
          assert w[i] == p[i] && w[i + 1] == p[i + 1];
        }
      }
    }
  }

  /** Dropping routes from the end keeps a path valid. */
  lemma ValidPathPrefix(p: seq<Route>, k: nat)
    requires ValidPath(p) && k <= |p|
    ensures ValidPath(p[..k])
  {
    assert p == p[..k] + p[k..];
    ValidPathAppend(p[..k], p[k..]);
  }

  /** In a valid path every route runs in the direction of the first. */
  lemma {:induction false} ValidPathOneDirection(p: seq<Route>, j: nat)
    requires ValidPath(p) && j < |p|
    ensures p[j].direction == p[0].direction
  {
    if j > 0 {
      ValidPathOneDirection(p, j - 1);
      assert Joins(p[j - 1], p[j]);
    }
  }
}
