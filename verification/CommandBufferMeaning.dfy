/** What a recording says, in the terms of the events and of the DOT language alone. */
module CommandBufferMeaning {
  import opened Text
  import opened Words
  import opened CommandBuffer
  import opened DotText
  import opened CommandBufferOrder
  import opened CommandBufferSize

  /** The identity of event `k`: the driver's sync point, or the number of earlier events without one, counted from `first`. */
  ghost predicate Identifies(first: uint32, es: seq<Event>, k: nat, id: NodeId)
    requires k < |es|
  {
    match es[k].syncPoint
    case Some(p) => id == NodeId(false, p)
    case None => id == NodeId(true, (first + |set i | 0 <= i < k && es[i].syncPoint == None|) % 0x1_0000_0000)
  }

  lemma {:induction false} InternalCountIs(es: seq<Event>)
    ensures InternalCount(es) == |set i | 0 <= i < |es| && es[i].syncPoint == None|
  {
    if es != [] {
      var n := |es| - 1;
      InternalCountIs(es[..n]);
      var before, all := set i | 0 <= i < n && es[..n][i].syncPoint == None, set i | 0 <= i < |es| && es[i].syncPoint == None;
      assert before == set i | 0 <= i < n && es[i].syncPoint == None;
      assert all == if es[n].syncPoint == None then before + {n} else before;
    }
  }

  lemma {:induction false} NamesIdentify(first: uint32, es: seq<Event>, k: nat)
    requires k < |es|
    ensures Identifies(first, es, k, Names(first, es)[k])
  {
    var n := |es| - 1;
    if k < n {
      NamesIdentify(first, es[..n], k);
      assert forall i :: 0 <= i < k ==> es[..n][i] == es[i];
      assert (set i | 0 <= i < k && es[..n][i].syncPoint == None) == set i | 0 <= i < k && es[i].syncPoint == None;
    } else {
      InternalCountIs(es[..n]);
      assert (set i | 0 <= i < n && es[..n][i].syncPoint == None) == set i | 0 <= i < n && es[i].syncPoint == None;
    }
  }

  /**
   The nodes of any recording are its events: node `k` has the identity of event `k`, is an octagon if and only if
   that is a barrier, and is captioned with the command, followed by its tag in parentheses when it has one.
   */
  lemma NodesSay(inOrder: bool, first: uint32, es: seq<Event>, k: nat)
    requires k < |es|
    ensures var nodes := NodesIn(Run(inOrder, first, es).items);
            && |nodes| == |es| && nodes[k].NodeItem?
            && Identifies(first, es, k, nodes[k].node)
            && (nodes[k].shape == Octagon <==> es[k].Barrier?)
            && nodes[k].caption == if es[k].Barrier? || es[k].tag == "" then es[k].cmd else es[k].cmd + "( " + es[k].tag + " )"
  {
    hide Identifies;
    NodesRecorded(inOrder, first, es);
    NamesIdentify(first, es, k);
  }

  /** The items written for one event, one by one, in a state with at most one implicit dependency. */
  lemma EventSays(s: State, e: Event)
    requires |s.implicitDeps| <= 1
    ensures var t := Step(s, e);
            var n, w := |s.items| + 1, |e.waits|;
            var o := if e.Barrier? && w == 0 then |s.outstandingIds| else 0;
            && |t.items| == n + w + o + |s.implicitDeps| && t.items[..n - 1] == s.items && t.items[n - 1].NodeItem?
            && var id := t.items[n - 1].node;
            && (forall i :: 0 <= i < w ==> t.items[n + i] == EdgeItem(NodeId(false, e.waits[i]), id, Explicit))
            && (forall i :: 0 <= i < o ==> t.items[n + w + i] == EdgeItem(s.outstandingIds[i], id, BarrierDep))
            && (s.implicitDeps != [] ==> t.items[n + w + o] == EdgeItem(s.implicitDeps[0], id, Implicit))
            && t.implicitDeps == (if s.inOrder || e.Barrier? then [id] else s.implicitDeps)
            && t.outstandingIds == (if e.Command? then (if s.inOrder then s.outstandingIds else s.outstandingIds + [id])
                                    else if w > 0 then s.outstandingIds else [])
  {
    var id := IdFor(s.nextInternalId, e);
    var mid := if e.Command? then EdgesFrom(SyncIds(e.waits), id, Explicit) else BarrierEdges(s, id, e.waits);
    ItemsAt(s.items, NodeOf(id, e), mid, EdgesFrom(s.implicitDeps, id, Implicit));
  }

  lemma ItemsAt(items: seq<Item>, node: Item, mid: seq<Item>, tail: seq<Item>)
    ensures var all, n := items + ([node] + mid + tail), |items| + 1;
            && |all| == n + |mid| + |tail| && all[..n - 1] == items && all[n - 1] == node
            && (forall i :: 0 <= i < |mid| ==> all[n + i] == mid[i])
            && (forall i :: 0 <= i < |tail| ==> all[n + |mid| + i] == tail[i])
  {
  }

  // ---- The text ----

  ghost predicate Prints(id: NodeId, text: string) {
    text == if id.isInternal then "internal" + Digits(id.id) else "syncpoint" + Digits(id.id)
  }

  /** How each item reads as DOT: nodes have their shape and caption, and implied edges their style. */
  lemma ItemSays(item: Item)
    ensures match item
            case NodeItem(id, shape, caption) =>
              exists name :: Prints(id, name) && RenderItem(item) ==
                "  " + name + (match shape case Oval => " [shape=oval, label=\"" case Octagon => " [shape=octagon, label=\"")
                + caption + "\"]\n"
            case EdgeItem(src, dst, kind) =>
              exists a, b :: Prints(src, a) && Prints(dst, b) && RenderItem(item) ==
                "  " + a + " -> " + b + (match kind
                                         case Explicit => " // explicit dependency\n"
                                         case Implicit => " [style=dashed] // implicit dependency\n"
                                         case BarrierDep => " [style=dotted] // barrier dependency\n")
  {
    match item
    case NodeItem(id, shape, caption) =>
      assert Prints(id, Name(id));
      Join5("  ", Name(id), ShapeText(shape), caption, NODE_END);
    case EdgeItem(src, dst, kind) =>
      assert Prints(src, Name(src)) && Prints(dst, Name(dst));
      Join5("  ", Name(src), " -> ", Name(dst), KindText(kind));
  }

  lemma Join5(a: string, b: string, c: string, d: string, e: string)
    ensures a + (b + (c + (d + e))) == a + b + c + d + e
  {
  }

  /** And the document around them. */
  lemma DocumentSays(inOrder: bool, items: seq<Item>)
    ensures Document(inOrder, items)
         == (if inOrder then "digraph {\n  // in-order command-buffer\n" else "digraph {\n  // out-of-order command-buffer\n")
            + FlatMap(RenderItem, items) + "}\n"
  {
    hide RenderItem;
    HeaderLiterals();
    Regroup(Header(inOrder), RenderItems(items), FOOTER);
    hide Header;
  }
}
