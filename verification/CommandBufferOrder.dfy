/**
 What the edges of a recording mean. The recorder keeps a sparse graph; the ordering it stands for
 is the dense graph defined here, straight from the commands and barriers.
 */
module CommandBufferOrder {
  import opened Text
  import opened Words
  import opened CommandBuffer
  import opened Graphs

  // ---- The dense graph ----

  function InternalCount(es: seq<Event>): nat {
    if es == [] then 0
    else InternalCount(es[..|es| - 1]) + (if es[|es| - 1].syncPoint.None? then 1 else 0)
  }

  /** The counter before an event, from the number of internally numbered events so far. */
  function CounterAfter(first: uint32, es: seq<Event>): uint32 {
    (first + InternalCount(es)) % TWO32
  }

  /** The names of the events, in recording order. */
  function Names(first: uint32, es: seq<Event>): (names: seq<NodeId>)
    ensures |names| == |es|
  {
    if es == [] then []
    else Names(first, es[..|es| - 1]) + [IdFor(CounterAfter(first, es[..|es| - 1]), es[|es| - 1])]
  }

  /** Whether event `i` must come before event `j` without an explicit wait. */
  predicate Ordered(inOrder: bool, es: seq<Event>, i: int, j: int) {
    && 0 <= i < j < |es|
    && (inOrder || es[i].Barrier? || (es[j].Barrier? && es[j].waits == []))
  }

  /** The dense graph over events `es` named `names`. */
  ghost function DenseOver(inOrder: bool, names: seq<NodeId>, es: seq<Event>): set<(NodeId, NodeId)>
    requires |names| == |es|
  {
    (set i, j | 0 <= i < |es| && 0 <= j < |es| && Ordered(inOrder, es, i, j) :: (names[i], names[j]))
    + (set j, k | 0 <= j < |es| && 0 <= k < |es[j].waits| :: (NodeId(false, es[j].waits[k]), names[j]))
  }

  ghost function Dense(inOrder: bool, first: uint32, es: seq<Event>): set<(NodeId, NodeId)> {
    DenseOver(inOrder, Names(first, es), es)
  }

  // ---- The recorded graph ----

  ghost function Sparse(items: seq<Item>): set<(NodeId, NodeId)> {
    set i | 0 <= i < |items| && items[i].EdgeItem? :: (items[i].src, items[i].dst)
  }

  lemma SparseAppend(a: seq<Item>, b: seq<Item>)
    ensures Sparse(a + b) == Sparse(a) + Sparse(b)
  {
    var c := a + b;
    forall e | e in Sparse(a) + Sparse(b) ensures e in Sparse(c) {
      if e in Sparse(a) {
        var i :| 0 <= i < |a| && a[i].EdgeItem? && (a[i].src, a[i].dst) == e;
        assert c[i] == a[i];
      } else {
        var i :| 0 <= i < |b| && b[i].EdgeItem? && (b[i].src, b[i].dst) == e;
        assert c[|a| + i] == b[i];
      }
    }
  }

  lemma SparseEdgesFrom(srcs: seq<NodeId>, dst: NodeId, kind: EdgeKind)
    ensures forall u, v :: (u, v) in Sparse(EdgesFrom(srcs, dst, kind)) <==> u in srcs && v == dst
  {
    var items := EdgesFrom(srcs, dst, kind);
    forall i | 0 <= i < |srcs| ensures (srcs[i], dst) in Sparse(items) {
      assert items[i] == EdgeItem(srcs[i], dst, kind);
    }
  }

  ghost predicate Waited(waits: seq<uint32>, u: NodeId) {
    !u.isInternal && u.id in waits
  }

  lemma SyncIdsMembers(waits: seq<uint32>)
    ensures forall u :: u in SyncIds(waits) <==> Waited(waits, u)
  {
    forall u | Waited(waits, u) ensures u in SyncIds(waits) {
      var k :| 0 <= k < |waits| && waits[k] == u.id;
      assert SyncIds(waits)[k] == u;
    }
  }

  /** The edges one step adds: from the wait list, the implicit dependency, and for a bare barrier the outstanding ids. */
  lemma NewEdges(s: State, e: Event)
    ensures var id := IdFor(s.nextInternalId, e);
            forall u, v :: (u, v) in Sparse(Step(s, e).items) <==>
              || (u, v) in Sparse(s.items)
              || (v == id && (Waited(e.waits, u) || u in s.implicitDeps
                              || (e.Barrier? && e.waits == [] && u in s.outstandingIds)))
  {
    var id := IdFor(s.nextInternalId, e);
    var head := [NodeOf(id, e)];
    var mid := if e.Command? then EdgesFrom(SyncIds(e.waits), id, Explicit) else BarrierEdges(s, id, e.waits);
    var tail := EdgesFrom(s.implicitDeps, id, Implicit);
    SparseAppend(s.items, head + mid + tail);
    SparseAppend(head + mid, tail);
    SparseAppend(head, mid);
    SyncIdsMembers(e.waits);
    SparseEdgesFrom(SyncIds(e.waits), id, Explicit);
    SparseEdgesFrom(s.outstandingIds, id, BarrierDep);
    SparseEdgesFrom(s.implicitDeps, id, Implicit);
  }

  // ---- The invariant of a run ----

  ghost predicate IsOrReaches(g: set<(NodeId, NodeId)>, u: NodeId, v: NodeId) {
    u == v || Reach(g, u, v)
  }

  /** `u` is, or reaches, the one implicit dependency. */
  ghost predicate Anchored(s: State, u: NodeId) {
    s.implicitDeps != [] && IsOrReaches(Sparse(s.items), u, s.implicitDeps[0])
  }

  /**
   There is at most one implicit dependency; every node is outstanding or anchored to it; barriers,
   and in an in-order queue all nodes, are anchored. Outstanding ids stay after a wait-list barrier.
   */
  ghost predicate AllAnchored(s: State, names: seq<NodeId>, es: seq<Event>)
    requires |names| == |es|
  {
    && |s.implicitDeps| <= 1
    && (s.inOrder ==> s.outstandingIds == [])
    && (forall i :: 0 <= i < |es| ==> Anchored(s, names[i]) || names[i] in s.outstandingIds)
    && (forall i :: 0 <= i < |es| && (s.inOrder || es[i].Barrier?) ==> Anchored(s, names[i]))
  }

  ghost predicate OrderReached(s: State, names: seq<NodeId>, es: seq<Event>)
    requires |names| == |es|
  {
    forall i, j :: Ordered(s.inOrder, es, i, j) ==> Reach(Sparse(s.items), names[i], names[j])
  }

  /** The ids kept in the state belong to recorded events of the right kind, and every edge is a dense one. */
  ghost predicate FromEvents(s: State, names: seq<NodeId>, es: seq<Event>)
    requires |names| == |es|
  {
    && (forall u :: u in s.implicitDeps ==>
          exists i :: 0 <= i < |es| && (s.inOrder || es[i].Barrier?) && u == names[i])
    && (forall u :: u in s.outstandingIds ==> u in names)
    && Sparse(s.items) <= DenseOver(s.inOrder, names, es)
  }

  ghost predicate WaitsReached(s: State, names: seq<NodeId>, es: seq<Event>)
    requires |names| == |es|
  {
    forall j, k :: 0 <= j < |es| && 0 <= k < |es[j].waits| ==>
      (NodeId(false, es[j].waits[k]), names[j]) in Sparse(s.items)
  }

  lemma AnchoredReachesNew(s: State, e: Event, u: NodeId)
    requires Anchored(s, u)
    ensures Reach(Sparse(Step(s, e).items), u, IdFor(s.nextInternalId, e))
  {
    var h, id, dep := Sparse(Step(s, e).items), IdFor(s.nextInternalId, e), s.implicitDeps[0];
    NewEdges(s, e);
    EdgeReaches(h, dep, id);
    if u != dep {
      ReachMono(Sparse(s.items), h, u, dep);
      ReachTrans(h, u, dep, id);
    }
  }

  lemma StaysAnchored(s: State, e: Event, u: NodeId)
    requires Anchored(s, u)
    ensures Anchored(Step(s, e), u)
  {
    NewEdges(s, e);
    AnchoredReachesNew(s, e, u);
    if Step(s, e).implicitDeps == s.implicitDeps && u != s.implicitDeps[0] {
      ReachMono(Sparse(s.items), Sparse(Step(s, e).items), u, s.implicitDeps[0]);
    }
  }

  /** Recording `e` puts every earlier node it has to wait for in reach of it. */
  lemma OutstandingReachesBarrier(s: State, e: Event, u: NodeId)
    requires u in s.outstandingIds && e.Barrier? && e.waits == []
    ensures Reach(Sparse(Step(s, e).items), u, IdFor(s.nextInternalId, e))
  {
    NewEdges(s, e);
    EdgeReaches(Sparse(Step(s, e).items), u, IdFor(s.nextInternalId, e));
  }

  lemma StepAnchors(s: State, names: seq<NodeId>, es: seq<Event>, e: Event)
    requires |names| == |es| && AllAnchored(s, names, es)
    ensures AllAnchored(Step(s, e), names + [IdFor(s.nextInternalId, e)], es + [e])
  {
    var t, id := Step(s, e), IdFor(s.nextInternalId, e);
    forall u | Anchored(s, u) ensures Anchored(t, u) {
      StaysAnchored(s, e, u);
    }
    forall u | u in s.outstandingIds ensures Anchored(t, u) || u in t.outstandingIds {
      if e.Barrier? && e.waits == [] {
        OutstandingReachesBarrier(s, e, u);
      }
    }
    assert e.Barrier? || s.inOrder ==> Anchored(t, id);
    assert Anchored(t, id) || id in t.outstandingIds;
  }

  lemma StepReachesOrder(s: State, names: seq<NodeId>, es: seq<Event>, e: Event)
    requires |names| == |es| && AllAnchored(s, names, es) && OrderReached(s, names, es)
    ensures OrderReached(Step(s, e), names + [IdFor(s.nextInternalId, e)], es + [e])
  {
    var id, h, all, alles := IdFor(s.nextInternalId, e), Sparse(Step(s, e).items),
                             names + [IdFor(s.nextInternalId, e)], es + [e];
    NewEdges(s, e);
    forall i, j | Ordered(s.inOrder, alles, i, j) ensures Reach(h, all[i], all[j]) {
      if j < |es| {
        assert Ordered(s.inOrder, es, i, j);
        ReachMono(Sparse(s.items), h, names[i], names[j]);
      } else if Anchored(s, names[i]) {
        AnchoredReachesNew(s, e, names[i]);
      } else {
        OutstandingReachesBarrier(s, e, names[i]);
      }
    }
  }

  lemma DenseGrows(inOrder: bool, names: seq<NodeId>, es: seq<Event>, id: NodeId, e: Event)
    requires |names| == |es|
    ensures DenseOver(inOrder, names, es) <= DenseOver(inOrder, names + [id], es + [e])
  {
    var all, alles := names + [id], es + [e];
    forall x | x in DenseOver(inOrder, names, es) ensures x in DenseOver(inOrder, all, alles) {
      if i, j :| 0 <= i < |es| && 0 <= j < |es| && Ordered(inOrder, es, i, j) && (names[i], names[j]) == x {
        assert Ordered(inOrder, alles, i, j) && (all[i], all[j]) == x;
      } else {
        var j, k :| 0 <= j < |es| && 0 <= k < |es[j].waits| && (NodeId(false, es[j].waits[k]), names[j]) == x;
        assert alles[j] == es[j] && all[j] == names[j];
      }
    }
  }

  lemma NewEdgeIsDense(s: State, names: seq<NodeId>, es: seq<Event>, e: Event, u: NodeId)
    requires |names| == |es| && FromEvents(s, names, es)
    requires Waited(e.waits, u) || u in s.implicitDeps || (e.Barrier? && e.waits == [] && u in s.outstandingIds)
    ensures (u, IdFor(s.nextInternalId, e)) in DenseOver(s.inOrder, names + [IdFor(s.nextInternalId, e)], es + [e])
  {
    var n, all, alles := |es|, names + [IdFor(s.nextInternalId, e)], es + [e];
    if Waited(e.waits, u) {
      var k :| 0 <= k < |e.waits| && e.waits[k] == u.id;
      assert (NodeId(false, alles[n].waits[k]), all[n]) in DenseOver(s.inOrder, all, alles);
    } else {
      var i :| 0 <= i < n && u == names[i] && (s.inOrder || es[i].Barrier? || (e.Barrier? && e.waits == []));
      assert Ordered(s.inOrder, alles, i, n) && (all[i], all[n]) in DenseOver(s.inOrder, all, alles);
    }
  }

  lemma StepFromEvents(s: State, names: seq<NodeId>, es: seq<Event>, e: Event)
    requires |names| == |es| && FromEvents(s, names, es)
    ensures FromEvents(Step(s, e), names + [IdFor(s.nextInternalId, e)], es + [e])
  {
    var t, id := Step(s, e), IdFor(s.nextInternalId, e);
    var all, alles := names + [id], es + [e];
    NewEdges(s, e);
    DenseGrows(s.inOrder, names, es, id, e);
    forall u, v | (u, v) in Sparse(t.items) ensures (u, v) in DenseOver(s.inOrder, all, alles) {
      if (u, v) !in Sparse(s.items) {
        NewEdgeIsDense(s, names, es, e, u);
      }
    }
    forall u | u in t.implicitDeps
      ensures exists i :: 0 <= i < |alles| && (t.inOrder || alles[i].Barrier?) && u == all[i]
    {
      if u in s.implicitDeps {
        var i :| 0 <= i < |es| && (s.inOrder || es[i].Barrier?) && u == names[i];
        assert alles[i] == es[i] && u == all[i];
      } else {
        assert alles[|es|] == e && u == all[|es|];
      }
    }
  }

  lemma StepReachesWaits(s: State, names: seq<NodeId>, es: seq<Event>, e: Event)
    requires |names| == |es| && WaitsReached(s, names, es)
    ensures WaitsReached(Step(s, e), names + [IdFor(s.nextInternalId, e)], es + [e])
  {
    NewEdges(s, e);
  }

  ghost predicate Inv(s: State, first: uint32, es: seq<Event>) {
    && s.nextInternalId == CounterAfter(first, es)
    && AllAnchored(s, Names(first, es), es)
    && OrderReached(s, Names(first, es), es)
    && FromEvents(s, Names(first, es), es)
    && WaitsReached(s, Names(first, es), es)
  }

  lemma StepKeepsInv(s: State, first: uint32, es: seq<Event>, e: Event)
    requires Inv(s, first, es)
    ensures Inv(Step(s, e), first, es + [e])
  {
    var names := Names(first, es);
    NamesSnoc(first, es, e);
    StepAnchors(s, names, es, e);
    StepReachesOrder(s, names, es, e);
    StepFromEvents(s, names, es, e);
    StepReachesWaits(s, names, es, e);
  }

  lemma NamesSnoc(first: uint32, es: seq<Event>, e: Event)
    ensures Names(first, es + [e]) == Names(first, es) + [IdFor(CounterAfter(first, es), e)]
    ensures CounterAfter(first, es + [e]) == Bump(CounterAfter(first, es), e)
  {
    assert (es + [e])[..|es|] == es;
    CounterSucc(first, InternalCount(es));
  }

  lemma CounterSucc(first: uint32, n: nat)
    ensures (first + (n + 1)) % TWO32 == ((first + n) % TWO32 + 1) % TWO32
  {
  }

  lemma {:induction false} RunKeepsInv(inOrder: bool, first: uint32, es: seq<Event>)
    ensures Run(inOrder, first, es).inOrder == inOrder
    ensures Inv(Run(inOrder, first, es), first, es)
  {
    if es == [] {
      NothingRun(inOrder, first);
    } else {
      hide Inv, NewItems, Run;
      var pre, e := es[..|es| - 1], es[|es| - 1];
      assert pre + [e] == es;
      RunKeepsInv(inOrder, first, pre);
      RunSnoc(inOrder, first, pre, e);
      StepKeepsInv(Run(inOrder, first, pre), first, pre, e);
    }
  }

  lemma NothingRun(inOrder: bool, first: uint32)
    ensures Run(inOrder, first, []).inOrder == inOrder && Inv(Run(inOrder, first, []), first, [])
  {
  }

  // ---- The recorded graph means the dense one ----

  lemma DenseEdgeReached(inOrder: bool, first: uint32, es: seq<Event>, a: NodeId, b: NodeId)
    requires (a, b) in Dense(inOrder, first, es)
    ensures Reach(Sparse(Run(inOrder, first, es).items), a, b)
  {
    RunKeepsInv(inOrder, first, es);
    var s, names := Run(inOrder, first, es), Names(first, es);
    if i, j :| 0 <= i < |es| && 0 <= j < |es| && Ordered(inOrder, es, i, j) && (names[i], names[j]) == (a, b) {
    } else {
      var j, k :| 0 <= j < |es| && 0 <= k < |es[j].waits| && (NodeId(false, es[j].waits[k]), names[j]) == (a, b);
      EdgeReaches(Sparse(s.items), a, b);
    }
  }

  /**
   For every run, in either queue mode and from any initial counter, the recorded graph has exactly
   the transitive closure of the dense graph. Names may even collide: nothing is assumed of them.
   */
  lemma ClosureIsPreserved(inOrder: bool, first: uint32, es: seq<Event>, u: NodeId, v: NodeId)
    ensures Reach(Sparse(Run(inOrder, first, es).items), u, v) <==> Reach(Dense(inOrder, first, es), u, v)
  {
    var g, d := Sparse(Run(inOrder, first, es).items), Dense(inOrder, first, es);
    RunKeepsInv(inOrder, first, es);
    if Reach(g, u, v) {
      ReachMono(g, d, u, v);
    }
    if Reach(d, u, v) {
      forall a, b | (a, b) in d ensures Reach(g, a, b) {
        DenseEdgeReached(inOrder, first, es, a, b);
      }
      ReachLift(d, g, u, v);
    }
  }

  /** Barriers synchronise: a bare barrier waits for all before it, and any barrier holds back all after it. */
  lemma BarriersSynchronise(inOrder: bool, first: uint32, es: seq<Event>, i: nat, j: nat)
    requires i < j < |es|
    requires es[i].Barrier? || (es[j].Barrier? && es[j].waits == [])
    ensures Reach(Sparse(Run(inOrder, first, es).items), Names(first, es)[i], Names(first, es)[j])
  {
    RunKeepsInv(inOrder, first, es);
    assert Ordered(inOrder, es, i, j);
  }

  // ---- Names ----

  /** Sync points handed out by the driver are distinct within a command buffer. */
  ghost predicate FreshSyncPoints(es: seq<Event>) {
    forall i, j :: 0 <= i < j < |es| && es[i].syncPoint.Some? && es[j].syncPoint.Some? ==>
      es[i].syncPoint != es[j].syncPoint
  }

  ghost predicate DistinctNames(first: uint32, es: seq<Event>) {
    forall i, j :: 0 <= i < j < |es| ==> Names(first, es)[i] != Names(first, es)[j]
  }

  lemma {:induction false} CountGrows(es: seq<Event>, i: nat, j: nat)
    requires i <= j <= |es|
    ensures InternalCount(es[..i]) <= InternalCount(es[..j]) <= InternalCount(es)
    ensures i < j && es[i].syncPoint.None? ==> InternalCount(es[..i]) < InternalCount(es[..j])
    decreases |es|
  {
    if es == [] {
    } else if j == |es| {
      assert es[..j] == es;
      var pre := es[..j - 1];
      if i < j {
        CountGrows(pre, i, j - 1);
        assert pre[..i] == es[..i] && pre[..j - 1] == pre;
      }
    } else {
      var pre := es[..|es| - 1];
      CountGrows(pre, i, j);
      assert pre[..i] == es[..i] && pre[..j] == es[..j];
    }
  }

  /** The name of event `i`, from its sync point or its rank among the internally numbered events. */
  lemma {:induction false} NameOfRank(first: uint32, es: seq<Event>, i: nat)
    requires i < |es|
    ensures Names(first, es)[i] == IdFor(CounterAfter(first, es[..i]), es[i])
  {
    if i < |es| - 1 {
      NameOfRank(first, es[..|es| - 1], i);
      assert es[..|es| - 1][..i] == es[..i];
    }
  }

  /** The `k`-th internally numbered event. */
  lemma {:induction false} KthInternal(es: seq<Event>, k: nat) returns (i: nat)
    requires k < InternalCount(es)
    ensures i < |es| && es[i].syncPoint.None? && InternalCount(es[..i]) == k
  {
    var pre := es[..|es| - 1];
    if k < InternalCount(pre) {
      i := KthInternal(pre, k);
      assert pre[..i] == es[..i];
    } else {
      i := |es| - 1;
    }
  }

  /**
   Despite the 32-bit wrap, and from any initial counter, the names are pairwise distinct exactly when
   the sync points are and at most 2^32 events were numbered internally.
   */
  lemma NamesDistinct(first: uint32, es: seq<Event>)
    ensures DistinctNames(first, es) <==> FreshSyncPoints(es) && InternalCount(es) <= TWO32
  {
    if DistinctNames(first, es) {
      DistinctMeansFew(first, es);
    }
    if FreshSyncPoints(es) && InternalCount(es) <= TWO32 {
      FewMeansDistinct(first, es);
    }
  }

  lemma CountersWrap(first: uint32, m: nat, n: nat)
    requires m < n <= m + TWO32
    ensures (first + m) % TWO32 == (first + n) % TWO32 <==> n == m + TWO32
  {
  }

  lemma DistinctMeansFew(first: uint32, es: seq<Event>)
    requires DistinctNames(first, es)
    ensures FreshSyncPoints(es) && InternalCount(es) <= TWO32
  {
    forall i, j | 0 <= i < j < |es| && es[i].syncPoint.Some? && es[j].syncPoint.Some?
      ensures es[i].syncPoint != es[j].syncPoint
    {
      NameOfRank(first, es, i);
      NameOfRank(first, es, j);
      assert Names(first, es)[i] != Names(first, es)[j];
    }
    if InternalCount(es) > TWO32 {
      ManyCollide(first, es);
      assert false;
    }
  }

  /** Past 2^32 internal nodes two have the same name. */
  lemma ManyCollide(first: uint32, es: seq<Event>)
    requires InternalCount(es) > TWO32
    ensures !DistinctNames(first, es)
  {
    hide Names;
    var i := KthInternal(es, 0);
    var j := KthInternal(es, TWO32);
    NameOfRank(first, es, i);
    NameOfRank(first, es, j);
    CountersWrap(first, 0, TWO32);
    assert Names(first, es)[i] == Names(first, es)[j];
  }

  lemma FewMeansDistinct(first: uint32, es: seq<Event>)
    requires FreshSyncPoints(es) && InternalCount(es) <= TWO32
    ensures DistinctNames(first, es)
  {
    forall i, j | 0 <= i < j < |es| ensures Names(first, es)[i] != Names(first, es)[j] {
      NameOfRank(first, es, i);
      NameOfRank(first, es, j);
      if es[i].syncPoint.None? && es[j].syncPoint.None? {
        InternalPairDiffers(first, es, i, j);
      }
    }
  }

  lemma InternalPairDiffers(first: uint32, es: seq<Event>, i: nat, j: nat)
    requires i < j < |es| && es[i].syncPoint.None? && es[j].syncPoint.None?
    requires InternalCount(es) <= TWO32
    ensures CounterAfter(first, es[..i]) != CounterAfter(first, es[..j])
  {
    hide InternalCount;
    RanksOrdered(es, i, j);
    CountersWrap(first, InternalCount(es[..i]), InternalCount(es[..j]));
  }

  lemma RanksOrdered(es: seq<Event>, i: nat, j: nat)
    requires i < j < |es| && es[i].syncPoint.None? && es[j].syncPoint.None?
    ensures InternalCount(es[..i]) < InternalCount(es[..j]) < InternalCount(es)
  {
    CountGrows(es, i, j);
    CountGrows(es, j, |es|);
    assert es[..|es|] == es;
  }

  // ---- Edges go forward ----

  /** Every wait names the sync point of an earlier event. */
  ghost predicate WaitsOnEarlier(es: seq<Event>) {
    forall j, k :: 0 <= j < |es| && 0 <= k < |es[j].waits| ==>
      exists i :: 0 <= i < j && es[i].syncPoint == Some(es[j].waits[k])
  }

  ghost predicate NamesInOrder(first: uint32, es: seq<Event>, u: NodeId, v: NodeId) {
    exists i, j :: 0 <= i < j < |es| && u == Names(first, es)[i] && v == Names(first, es)[j]
  }

  lemma DenseEdgeForward(inOrder: bool, first: uint32, es: seq<Event>, u: NodeId, v: NodeId)
    requires WaitsOnEarlier(es) && (u, v) in Dense(inOrder, first, es)
    ensures NamesInOrder(first, es, u, v)
  {
    if i, j :| 0 <= i < |es| && 0 <= j < |es| && Ordered(inOrder, es, i, j)
               && (Names(first, es)[i], Names(first, es)[j]) == (u, v) {
    } else {
      var j, k :| 0 <= j < |es| && 0 <= k < |es[j].waits|
                  && (NodeId(false, es[j].waits[k]), Names(first, es)[j]) == (u, v);
      var i :| 0 <= i < j && es[i].syncPoint == Some(es[j].waits[k]);
      NameOfRank(first, es, i);
      assert u == Names(first, es)[i];
    }
  }

  lemma {:induction false} DensePathForward(inOrder: bool, first: uint32, es: seq<Event>, p: seq<NodeId>)
    requires WaitsOnEarlier(es) && DistinctNames(first, es)
    requires IsPath(Dense(inOrder, first, es), p)
    ensures NamesInOrder(first, es, p[0], p[|p| - 1])
    decreases |p|
  {
    assert (p[0], p[1]) in Dense(inOrder, first, es);
    DenseEdgeForward(inOrder, first, es, p[0], p[1]);
    if |p| > 2 {
      DensePathForward(inOrder, first, es, p[1..]);
      var i, j :| 0 <= i < j < |es| && p[0] == Names(first, es)[i] && p[1] == Names(first, es)[j];
      var j', k :| 0 <= j' < k < |es| && p[1] == Names(first, es)[j'] && p[|p| - 1] == Names(first, es)[k];
      assert j == j';
    }
  }

  /** With distinct names and waits on earlier sync points only, reachability follows recording order. */
  lemma ReachIsForward(inOrder: bool, first: uint32, es: seq<Event>, u: NodeId, v: NodeId)
    requires WaitsOnEarlier(es) && FreshSyncPoints(es) && InternalCount(es) <= TWO32
    requires Reach(Sparse(Run(inOrder, first, es).items), u, v)
    ensures NamesInOrder(first, es, u, v)
  {
    NamesDistinct(first, es);
    ClosureIsPreserved(inOrder, first, es, u, v);
    var p: seq<NodeId> :| IsPath(Dense(inOrder, first, es), p) && p[0] == u && p[|p| - 1] == v;
    DensePathForward(inOrder, first, es, p);
  }

  lemma Acyclic(inOrder: bool, first: uint32, es: seq<Event>, u: NodeId)
    requires WaitsOnEarlier(es) && FreshSyncPoints(es) && InternalCount(es) <= TWO32
    ensures !Reach(Sparse(Run(inOrder, first, es).items), u, u)
  {
    if Reach(Sparse(Run(inOrder, first, es).items), u, u) {
      ReachIsForward(inOrder, first, es, u, u);
      NamesDistinct(first, es);
    }
  }

  /** In an in-order queue, one node reaches another exactly when it was recorded earlier. */
  lemma InOrderIsTotal(first: uint32, es: seq<Event>, i: nat, j: nat)
    requires i < |es| && j < |es|
    requires WaitsOnEarlier(es) && FreshSyncPoints(es) && InternalCount(es) <= TWO32
    ensures Reach(Sparse(Run(true, first, es).items), Names(first, es)[i], Names(first, es)[j]) <==> i < j
  {
    RunKeepsInv(true, first, es);
    NamesDistinct(first, es);
    if i < j {
      assert Ordered(true, es, i, j);
    } else if Reach(Sparse(Run(true, first, es).items), Names(first, es)[i], Names(first, es)[j]) {
      ReachIsForward(true, first, es, Names(first, es)[i], Names(first, es)[j]);
    }
  }

  /** In-order: the latest node is the only implicit dependency, and nothing is ever outstanding. */
  lemma InOrderState(first: uint32, es: seq<Event>)
    requires es != []
    ensures Run(true, first, es).implicitDeps == [Names(first, es)[|es| - 1]]
    ensures Run(true, first, es).outstandingIds == []
  {
    RunKeepsInv(true, first, es);
    RunKeepsInv(true, first, es[..|es| - 1]);
  }
}
