/** The recorder as the interceptor runs it: it appends DOT text and updates its state in place. */
module CommandBufferRecord {
  import opened Text
  import opened Words
  import opened CommandBuffer
  import opened DotText

  class Recorder {
    var dotstring: string
    var nextInternalId: uint32
    var queueIsInOrder: bool
    var implicitDeps: seq<NodeId>
    var outstandingIds: seq<NodeId>
    /** What was recorded, from which counter, and what was written for it. */
    ghost var events: seq<Event>
    ghost var firstInternalId: uint32
    ghost var state: State

    /** The fields are the state of the run over `events`, and the text is its unfinished document. */
    ghost predicate Valid()
      reads this
    {
      && Synced()
      && state == Run(queueIsInOrder, firstInternalId, events)
    }

    ghost predicate Synced()
      reads this
    {
      && state.inOrder == queueIsInOrder
      && state.nextInternalId == nextInternalId
      && state.implicitDeps == implicitDeps
      && state.outstandingIds == outstandingIds
      && dotstring == Header(queueIsInOrder) + RenderItems(state.items)
    }

    /** The counter has no initializer, so it starts anywhere. */
    constructor (initialCounter: uint32)
      ensures dotstring == "" && implicitDeps == [] && outstandingIds == []
      ensures nextInternalId == initialCounter
    {
      dotstring, implicitDeps, outstandingIds, queueIsInOrder := "", [], [], false;
      nextInternalId := initialCounter;
      events, firstInternalId, state := [], initialCounter, State(false, initialCounter, [], [], []);
    }

    method RecordCreate(isInOrder: bool)
      requires dotstring == "" && implicitDeps == [] && outstandingIds == []
      modifies this
      ensures Valid() && queueIsInOrder == isInOrder && events == [] && firstInternalId == old(nextInternalId)
    {
      queueIsInOrder := isInOrder;
      dotstring := dotstring + "digraph {\n";
      dotstring := dotstring + ("  // " + (OrderText(queueIsInOrder) + " command-buffer\n"));
      events, firstInternalId := [], nextInternalId;
      state := State(isInOrder, nextInternalId, [], [], []);
      FreshText(queueIsInOrder);
    }

    method MakeId(syncPoint: Option<uint32>) returns (id: NodeId)
      modifies `nextInternalId
      ensures id == if syncPoint.Some? then NodeId(false, syncPoint.value) else NodeId(true, old(nextInternalId))
      ensures nextInternalId == if syncPoint.None? then (old(nextInternalId) + 1) % TWO32 else old(nextInternalId)
    {
      if syncPoint.None? {
        id := NodeId(true, nextInternalId);
        nextInternalId := (nextInternalId + 1) % TWO32;
      } else {
        id := NodeId(false, syncPoint.value);
      }
    }

    method WriteNode(id: NodeId, e: Event)
      modifies `dotstring
      ensures dotstring == old(dotstring) + RenderItem(NodeOf(id, e))
    {
      var caption := e.cmd;
      if e.Command? && e.tag != "" {
        caption := e.cmd + "( " + e.tag + " )";
      }
      dotstring := dotstring + ("  " + (Name(id) + (ShapeText(if e.Command? then Oval else Octagon) + (caption + NODE_END))));
    }

    method WriteEdges(srcs: seq<NodeId>, dst: NodeId, kind: EdgeKind)
      modifies `dotstring
      ensures dotstring == old(dotstring) + RenderItems(EdgesFrom(srcs, dst, kind))
    {
      for i := 0 to |srcs|
        invariant dotstring == old(dotstring) + RenderItems(EdgesFrom(srcs[..i], dst, kind))
      {
        dotstring := dotstring + ("  " + (Name(srcs[i]) + (" -> " + (Name(dst) + KindText(kind)))));
        OneMoreEdge(old(dotstring), srcs, i, dst, kind);
      }
      assert srcs[..|srcs|] == srcs;
    }

    method RecordCommand(cmd: string, tag: string, waits: seq<uint32>, syncPoint: Option<uint32>)
      requires Valid()
      modifies this
      ensures Valid() && queueIsInOrder == old(queueIsInOrder) && firstInternalId == old(firstInternalId)
      ensures events == old(events) + [Command(cmd, tag, waits, syncPoint)]
    {
      hide Header, RenderItems, RenderItem, Run, SyncIds, EdgesFrom, NodeOf, NewItems;
      ghost var e := Command(cmd, tag, waits, syncPoint);
      var id := MakeId(syncPoint);
      WriteNode(id, Command(cmd, tag, waits, syncPoint));
      WriteEdges(SyncIds(waits), id, Explicit);
      WriteEdges(implicitDeps, id, Implicit);
      WrittenText(Header(queueIsInOrder), state, e);
      if queueIsInOrder {
        implicitDeps := [];
        implicitDeps := implicitDeps + [id];
      } else {
        outstandingIds := outstandingIds + [id];
      }
      WrittenText(Header(queueIsInOrder), state, e);
      RunSnoc(queueIsInOrder, firstInternalId, events, e);
      events, state := events + [e], Step(state, e);
    }

    method RecordBarrier(cmd: string, waits: seq<uint32>, syncPoint: Option<uint32>)
      requires Valid()
      modifies this
      ensures Valid() && queueIsInOrder == old(queueIsInOrder) && firstInternalId == old(firstInternalId)
      ensures events == old(events) + [Barrier(cmd, waits, syncPoint)]
    {
      hide Header, RenderItems, RenderItem, Run, SyncIds, EdgesFrom, NodeOf, NewItems;
      ghost var e := Barrier(cmd, waits, syncPoint);
      var id := MakeId(syncPoint);
      WriteNode(id, Barrier(cmd, waits, syncPoint));
      if |waits| > 0 {
        WriteEdges(SyncIds(waits), id, Explicit);
      } else {
        WriteEdges(outstandingIds, id, BarrierDep);
        outstandingIds := [];
      }
      WriteEdges(implicitDeps, id, Implicit);
      implicitDeps := [];
      implicitDeps := implicitDeps + [id];
      WrittenText(Header(queueIsInOrder), state, e);
      RunSnoc(queueIsInOrder, firstInternalId, events, e);
      events, state := events + [e], Step(state, e);
    }

    /** The finished text is the document of the run, which the lemmas on documents read back. */
    method RecordFinalize()
      requires Valid()
      modifies `dotstring
      ensures dotstring == Document(queueIsInOrder, Run(queueIsInOrder, firstInternalId, events).items)
    {
      hide Header, RenderItems, Run;
      Regroup(Header(queueIsInOrder), RenderItems(state.items), FOOTER);
      dotstring := dotstring + "}\n";
    }
  }

  lemma FreshText(inOrder: bool)
    ensures "" + "digraph {\n" + ("  // " + (OrderText(inOrder) + " command-buffer\n"))
         == Header(inOrder) + RenderItems([])
  {
    AppendEmpty(Header(inOrder));
    assert "" + "digraph {\n" == "digraph {\n";
  }

  lemma OneMoreEdge(text: string, srcs: seq<NodeId>, i: nat, dst: NodeId, kind: EdgeKind)
    requires i < |srcs|
    ensures text + RenderItems(EdgesFrom(srcs[..i], dst, kind)) + RenderItem(EdgeItem(srcs[i], dst, kind))
         == text + RenderItems(EdgesFrom(srcs[..i + 1], dst, kind))
  {
    var edge := EdgeItem(srcs[i], dst, kind);
    assert EdgesFrom(srcs[..i + 1], dst, kind) == EdgesFrom(srcs[..i], dst, kind) + [edge];
    FlatMapSnoc(RenderItem, EdgesFrom(srcs[..i], dst, kind), edge);
    Regroup(text, RenderItems(EdgesFrom(srcs[..i], dst, kind)), RenderItem(edge));
  }

  /** The pieces one recording step writes make up the text of the items it adds. */
  lemma WrittenText(head: string, s: State, e: Event)
    ensures var id := IdFor(s.nextInternalId, e);
            head + RenderItems(Step(s, e).items) ==
            (((head + RenderItems(s.items)) + RenderItem(NodeOf(id, e)))
             + (if e.Command? then RenderItems(EdgesFrom(SyncIds(e.waits), id, Explicit))
                else RenderItems(BarrierEdges(s, id, e.waits))))
            + RenderItems(EdgesFrom(s.implicitDeps, id, Implicit))
  {
    var id := IdFor(s.nextInternalId, e);
    var node := NodeOf(id, e);
    var mid := if e.Command? then EdgesFrom(SyncIds(e.waits), id, Explicit) else BarrierEdges(s, id, e.waits);
    var tail := EdgesFrom(s.implicitDeps, id, Implicit);
    assert s.items + ([node] + mid + tail) == ((s.items + [node]) + mid) + tail;
    FlatMapAppend(RenderItem, (s.items + [node]) + mid, tail);
    FlatMapAppend(RenderItem, s.items + [node], mid);
    FlatMapSnoc(RenderItem, s.items, node);
    Regroup(head, RenderItems((s.items + [node]) + mid), RenderItems(tail));
    Regroup(head, RenderItems(s.items + [node]), RenderItems(mid));
    Regroup(head, RenderItems(s.items), RenderItem(node));
  }
}
