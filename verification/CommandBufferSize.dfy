/** How much a recording writes, and that nothing written is lost or repeated. */
module CommandBufferSize {
  import opened Text
  import opened Words
  import opened CommandBuffer
  import opened CommandBufferOrder

  /** The sources of the edges of one kind, in the order they were written. */
  function Sources(items: seq<Item>, kind: EdgeKind): seq<NodeId> {
    if items == [] then []
    else SourceOf(items[0], kind) + Sources(items[1..], kind)
  }

  function SourceOf(item: Item, kind: EdgeKind): seq<NodeId> {
    if item.EdgeItem? && item.kind == kind then [item.src] else []
  }

  function NodesIn(items: seq<Item>): seq<Item> {
    if items == [] then []
    else (if items[0].NodeItem? then [items[0]] else []) + NodesIn(items[1..])
  }

  lemma {:induction false} SourcesAppend(a: seq<Item>, b: seq<Item>, kind: EdgeKind)
    ensures Sources(a + b, kind) == Sources(a, kind) + Sources(b, kind)
  {
    if a == [] {
      assert a + b == b;
    } else {
      SourcesAppend(a[1..], b, kind);
      assert (a + b)[0] == a[0] && (a + b)[1..] == a[1..] + b;
      hide SourceOf;
      Regroup(SourceOf(a[0], kind), Sources(a[1..], kind), Sources(b, kind));
    }
  }

  lemma {:induction false} NodesInAppend(a: seq<Item>, b: seq<Item>)
    ensures NodesIn(a + b) == NodesIn(a) + NodesIn(b)
  {
    if a == [] {
      assert a + b == b;
    } else {
      var first := if a[0].NodeItem? then [a[0]] else [];
      NodesInAppend(a[1..], b);
      assert (a + b)[0] == a[0] && (a + b)[1..] == a[1..] + b;
      assert NodesIn(a + b) == first + NodesIn((a + b)[1..]) && NodesIn(a) == first + NodesIn(a[1..]);
      hide NodesIn;
      Regroup(first, NodesIn(a[1..]), NodesIn(b));
    }
  }

  lemma {:induction false} OfEdgesFrom(srcs: seq<NodeId>, dst: NodeId, k: EdgeKind, kind: EdgeKind)
    ensures Sources(EdgesFrom(srcs, dst, k), kind) == if k == kind then srcs else []
    ensures NodesIn(EdgesFrom(srcs, dst, k)) == []
  {
    if srcs != [] {
      OfEdgesFrom(srcs[1..], dst, k, kind);
      assert EdgesFrom(srcs, dst, k)[1..] == EdgesFrom(srcs[1..], dst, k);
      assert [srcs[0]] + srcs[1..] == srcs;
    }
  }

  lemma {:induction false} EveryItemCounted(items: seq<Item>)
    ensures |items| == |NodesIn(items)| + |Sources(items, Explicit)| + |Sources(items, Implicit)|
                       + |Sources(items, BarrierDep)|
  {
    if items != [] {
      EveryItemCounted(items[1..]);
    }
  }

  lemma NewItemsOf(s: State, e: Event, kind: EdgeKind)
    ensures Sources(NewItems(s, e), kind) ==
            match kind
            case Explicit => SyncIds(e.waits)
            case Implicit => s.implicitDeps
            case BarrierDep => if e.Barrier? && e.waits == [] then s.outstandingIds else []
    ensures NodesIn(NewItems(s, e)) == [NodeOf(IdFor(s.nextInternalId, e), e)]
  {
    var id := IdFor(s.nextInternalId, e);
    var head := [NodeOf(id, e)];
    var mid := if e.Command? then EdgesFrom(SyncIds(e.waits), id, Explicit) else BarrierEdges(s, id, e.waits);
    var tail := EdgesFrom(s.implicitDeps, id, Implicit);
    SourcesAppend(head + mid, tail, kind);
    NodesInAppend(head + mid, tail);
    OfNodeThenEdges(head[0], mid, kind);
    OfEdgesFrom(SyncIds(e.waits), id, Explicit, kind);
    OfEdgesFrom(s.outstandingIds, id, BarrierDep, kind);
    OfEdgesFrom(s.implicitDeps, id, Implicit, kind);
  }

  lemma OfNodeThenEdges(node: Item, edges: seq<Item>, kind: EdgeKind)
    requires node.NodeItem?
    ensures Sources([node] + edges, kind) == Sources(edges, kind)
    ensures NodesIn([node] + edges) == [node] + NodesIn(edges)
  {
    assert ([node] + edges)[1..] == edges;
  }

  /** All wait-list entries, in recording order. */
  function WaitEntries(es: seq<Event>): seq<NodeId> {
    if es == [] then [] else WaitEntries(es[..|es| - 1]) + SyncIds(es[|es| - 1].waits)
  }

  /** The names of the commands that become outstanding: none in an in-order queue. */
  function CommandNames(inOrder: bool, first: uint32, es: seq<Event>): seq<NodeId> {
    if es == [] || inOrder then []
    else
      CommandNames(inOrder, first, es[..|es| - 1])
      + (if es[|es| - 1].Command? then [Names(first, es)[|es| - 1]] else [])
  }

  function CommandCount(es: seq<Event>): nat {
    if es == [] then 0 else CommandCount(es[..|es| - 1]) + (if es[|es| - 1].Command? then 1 else 0)
  }

  /** The nodes of a recording, from the events alone. */
  function NodeList(first: uint32, es: seq<Event>): seq<Item> {
    seq(|es|, i requires 0 <= i < |es| => NodeOf(Names(first, es)[i], es[i]))
  }

  lemma NodeListSnoc(first: uint32, es: seq<Event>)
    requires es != []
    ensures NodeList(first, es)
         == NodeList(first, es[..|es| - 1]) + [NodeOf(Names(first, es)[|es| - 1], es[|es| - 1])]
  {
  }

  /** Exactly one node per event, in order, with its shape and label. */
  lemma {:induction false} NodesRecorded(inOrder: bool, first: uint32, es: seq<Event>)
    ensures NodesIn(Run(inOrder, first, es).items) == NodeList(first, es)
  {
    if es != [] {
      var pre, e := es[..|es| - 1], es[|es| - 1];
      var s := Run(inOrder, first, pre);
      NodesRecorded(inOrder, first, pre);
      RunKeepsInv(inOrder, first, pre);
      NodesInAppend(s.items, NewItems(s, e));
      NewItemsOf(s, e, Explicit);
      NodeListSnoc(first, es);
    }
  }

  /** Exactly one explicit edge per wait-list entry, in order. */
  lemma {:induction false} WaitsRecorded(inOrder: bool, first: uint32, es: seq<Event>)
    ensures Sources(Run(inOrder, first, es).items, Explicit) == WaitEntries(es)
  {
    if es != [] {
      var pre, e := es[..|es| - 1], es[|es| - 1];
      var s := Run(inOrder, first, pre);
      WaitsRecorded(inOrder, first, pre);
      SourcesAppend(s.items, NewItems(s, e), Explicit);
      NewItemsOf(s, e, Explicit);
    }
  }

  /**
   Conservation: the sources of the barrier edges written so far, followed by the outstanding ids, are
   the out-of-order commands in recording order. Each command is drained by at most one barrier.
   */
  lemma {:induction false} OutstandingConserved(inOrder: bool, first: uint32, es: seq<Event>)
    ensures var s := Run(inOrder, first, es);
            Sources(s.items, BarrierDep) + s.outstandingIds == CommandNames(inOrder, first, es)
  {
    if es != [] {
      var pre, e := es[..|es| - 1], es[|es| - 1];
      var s := Run(inOrder, first, pre);
      OutstandingConserved(inOrder, first, pre);
      RunKeepsInv(inOrder, first, pre);
      OutstandingStep(s, e);
      assert Names(first, es)[|es| - 1] == IdFor(s.nextInternalId, e);
    }
  }

  lemma OutstandingStep(s: State, e: Event)
    requires s.inOrder ==> s.outstandingIds == []
    ensures var t := Step(s, e);
            Sources(t.items, BarrierDep) + t.outstandingIds
            == (Sources(s.items, BarrierDep) + s.outstandingIds)
               + (if e.Command? && !s.inOrder then [IdFor(s.nextInternalId, e)] else [])
  {
    hide Sources, NewItems, IdFor, Bump;
    SourcesAppend(s.items, NewItems(s, e), BarrierDep);
    NewItemsOf(s, e, BarrierDep);
    if e.Command? {
      Regroup(Sources(s.items, BarrierDep), s.outstandingIds, [IdFor(s.nextInternalId, e)]);
    }
  }

  /** At most one implicit edge per event but the first. */
  lemma {:induction false} ImplicitEdgesFew(inOrder: bool, first: uint32, es: seq<Event>)
    ensures |Sources(Run(inOrder, first, es).items, Implicit)| <= if es == [] then 0 else |es| - 1
  {
    if es != [] {
      var pre, e := es[..|es| - 1], es[|es| - 1];
      var s := Run(inOrder, first, pre);
      ImplicitEdgesFew(inOrder, first, pre);
      RunKeepsInv(inOrder, first, pre);
      SourcesAppend(s.items, NewItems(s, e), Implicit);
      NewItemsOf(s, e, Implicit);
    }
  }

  lemma {:induction false} CommandNamesCount(inOrder: bool, first: uint32, es: seq<Event>)
    ensures |CommandNames(inOrder, first, es)| == if inOrder then 0 else CommandCount(es)
  {
    if es != [] {
      CommandNamesCount(inOrder, first, es[..|es| - 1]);
    }
  }

  /** The recorded graph is linear in the events and their wait lists. */
  lemma LinearSize(inOrder: bool, first: uint32, es: seq<Event>)
    ensures var items := Run(inOrder, first, es).items;
            |items| - |NodesIn(items)| <= |WaitEntries(es)| + |es| + (if inOrder then 0 else CommandCount(es))
    ensures |NodesIn(Run(inOrder, first, es).items)| == |es|
  {
    EveryItemCounted(Run(inOrder, first, es).items);
    NodesRecorded(inOrder, first, es);
    WaitsRecorded(inOrder, first, es);
    OutstandingConserved(inOrder, first, es);
    ImplicitEdgesFew(inOrder, first, es);
    CommandNamesCount(inOrder, first, es);
  }
}
