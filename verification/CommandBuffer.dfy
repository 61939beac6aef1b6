/**
 The dependency recorder of a command buffer: the commands and barriers recorded so far,
 the state kept between them, and the nodes and edges written for each one.
 */
module CommandBuffer {
  import opened Text
  import opened Words

  /** The printed identity of a node: a sync point handed out by the driver, or an internal number. */
  datatype NodeId = NodeId(isInternal: bool, id: uint32)

  datatype Shape = Oval | Octagon

  datatype EdgeKind = Explicit | Implicit | BarrierDep

  datatype Item =
    | NodeItem(node: NodeId, shape: Shape, caption: string)
    | EdgeItem(src: NodeId, dst: NodeId, kind: EdgeKind)

  /** One call to record: `syncPoint` is None when the caller passed a null pointer. */
  datatype Event =
    | Command(cmd: string, tag: string, waits: seq<uint32>, syncPoint: Option<uint32>)
    | Barrier(cmd: string, waits: seq<uint32>, syncPoint: Option<uint32>)

  datatype State = State(
    inOrder: bool,
    nextInternalId: uint32,
    implicitDeps: seq<NodeId>,
    outstandingIds: seq<NodeId>,
    items: seq<Item>)

  function Bump(next: uint32, e: Event): uint32 {
    if e.syncPoint.None? then (next + 1) % TWO32 else next
  }

  function IdFor(next: uint32, e: Event): NodeId {
    if e.syncPoint.Some? then NodeId(false, e.syncPoint.value) else NodeId(true, next)
  }

  function Label(e: Event): string {
    if e.Command? && e.tag != "" then e.cmd + "( " + e.tag + " )" else e.cmd
  }

  function NodeOf(id: NodeId, e: Event): Item {
    NodeItem(id, if e.Command? then Oval else Octagon, Label(e))
  }

  function SyncIds(waits: seq<uint32>): (r: seq<NodeId>)
    ensures |r| == |waits|
  {
    seq(|waits|, i requires 0 <= i < |waits| => NodeId(false, waits[i]))
  }

  function EdgesFrom(srcs: seq<NodeId>, dst: NodeId, kind: EdgeKind): (r: seq<Item>)
    ensures |r| == |srcs|
  {
    seq(|srcs|, i requires 0 <= i < |srcs| => EdgeItem(srcs[i], dst, kind))
  }

  /** The edges written when a barrier is recorded, before the implicit ones. */
  function BarrierEdges(s: State, id: NodeId, waits: seq<uint32>): seq<Item> {
    if waits != [] then EdgesFrom(SyncIds(waits), id, Explicit)
    else EdgesFrom(s.outstandingIds, id, BarrierDep)
  }

  function NewItems(s: State, e: Event): seq<Item> {
    var id := IdFor(s.nextInternalId, e);
    [NodeOf(id, e)]
    + (if e.Command? then EdgesFrom(SyncIds(e.waits), id, Explicit) else BarrierEdges(s, id, e.waits))
    + EdgesFrom(s.implicitDeps, id, Implicit)
  }

  function Step(s: State, e: Event): State {
    var id := IdFor(s.nextInternalId, e);
    State(s.inOrder,
          Bump(s.nextInternalId, e),
          if e.Barrier? || s.inOrder then [id] else s.implicitDeps,
          if e.Command? then (if s.inOrder then s.outstandingIds else s.outstandingIds + [id])
          else if e.waits != [] then s.outstandingIds else [],
          s.items + NewItems(s, e))
  }

  /** The state after recording `es`, from an arbitrary initial counter `first`. */
  function Run(inOrder: bool, first: uint32, es: seq<Event>): State {
    if es == [] then State(inOrder, first, [], [], [])
    else Step(Run(inOrder, first, es[..|es| - 1]), es[|es| - 1])
  }

  lemma RunSnoc(inOrder: bool, first: uint32, es: seq<Event>, e: Event)
    ensures Run(inOrder, first, es + [e]) == Step(Run(inOrder, first, es), e)
  {
    assert (es + [e])[..|es|] == es;
  }
}
