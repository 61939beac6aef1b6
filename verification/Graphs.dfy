/** Directed graphs as edge sets, and reachability by at least one edge. */
module Graphs {

  ghost predicate IsPath<T>(g: set<(T, T)>, p: seq<T>)
  {
    |p| >= 2 && forall k :: 0 <= k < |p| - 1 ==> (p[k], p[k + 1]) in g
  }

  /** The transitive closure of `g`. */
  ghost predicate Reach<T(!new)>(g: set<(T, T)>, u: T, v: T)
  {
    exists p: seq<T> :: IsPath(g, p) && p[0] == u && p[|p| - 1] == v
  }

  lemma EdgeReaches<T(!new)>(g: set<(T, T)>, u: T, v: T)
    requires (u, v) in g
    ensures Reach(g, u, v)
  {
    assert IsPath(g, [u, v]);
  }

  lemma ReachTrans<T(!new)>(g: set<(T, T)>, u: T, v: T, w: T)
    requires Reach(g, u, v) && Reach(g, v, w)
    ensures Reach(g, u, w)
  {
    var p: seq<T> :| IsPath(g, p) && p[0] == u && p[|p| - 1] == v;
    var q: seq<T> :| IsPath(g, q) && q[0] == v && q[|q| - 1] == w;
    var r := p + q[1..];
    forall k | 0 <= k < |r| - 1 ensures (r[k], r[k + 1]) in g {
      if k >= |p| - 1 {
        assert r[k] == q[k - (|p| - 1)] && r[k + 1] == q[k + 1 - (|p| - 1)];
      }
    }
    assert IsPath(g, r);
  }

  /** A graph whose every edge is a path of `h` reaches no more than `h` does. */
  lemma ReachLift<T(!new)>(g: set<(T, T)>, h: set<(T, T)>, u: T, v: T)
    requires forall a, b :: (a, b) in g ==> Reach(h, a, b)
    requires Reach(g, u, v)
    ensures Reach(h, u, v)
  {
    var p: seq<T> :| IsPath(g, p) && p[0] == u && p[|p| - 1] == v;
    PathLift(g, h, p);
  }

  lemma {:induction false} PathLift<T(!new)>(g: set<(T, T)>, h: set<(T, T)>, p: seq<T>)
    requires forall a, b :: (a, b) in g ==> Reach(h, a, b)
    requires IsPath(g, p)
    ensures Reach(h, p[0], p[|p| - 1])
    decreases |p|
  {
    assert (p[0], p[1]) in g;
    if |p| > 2 {
      PathLift(g, h, p[1..]);
      ReachTrans(h, p[0], p[1], p[|p| - 1]);
    }
  }

  lemma ReachMono<T(!new)>(g: set<(T, T)>, h: set<(T, T)>, u: T, v: T)
    requires g <= h && Reach(g, u, v)
    ensures Reach(h, u, v)
  {
    var p: seq<T> :| IsPath(g, p) && p[0] == u && p[|p| - 1] == v;
    assert IsPath(h, p);
  }
}
