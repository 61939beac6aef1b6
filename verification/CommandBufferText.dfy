/** The text of a whole recording, in terms of the events recorded. */
module CommandBufferText {
  import opened Text
  import opened Words
  import opened CommandBuffer
  import opened DotText
  import opened CommandBufferOrder
  import opened CommandBufferSize

  lemma NameInjective(a: NodeId, b: NodeId)
    ensures Name(a) == Name(b) <==> a == b
  {
    hide Digits;
    if Name(a) == Name(b) {
      assert Name(a)[0] == if a.isInternal then 'i' else 's';
      assert Name(b)[0] == if b.isInternal then 'i' else 's';
      var lead := if a.isInternal then "internal" else "syncpoint";
      assert Digits(a.id) == Name(a)[|lead|..] == Digits(b.id);
      DigitsInjective(a.id, b.id);
    }
  }

  ghost predicate DistinctTexts(names: seq<NodeId>) {
    forall i, j :: 0 <= i < j < |names| ==> Name(names[i]) != Name(names[j])
  }

  /** As printed, node names are pairwise distinct exactly when sync points are and at most 2^32 are internal. */
  lemma PrintedNamesDistinct(first: uint32, es: seq<Event>)
    ensures DistinctTexts(Names(first, es)) <==> FreshSyncPoints(es) && InternalCount(es) <= TWO32
  {
    NamesDistinct(first, es);
    SameDistinctness(Names(first, es));
  }

  lemma SameDistinctness(names: seq<NodeId>)
    ensures DistinctTexts(names) <==> forall i, j :: 0 <= i < j < |names| ==> names[i] != names[j]
  {
    forall i, j | 0 <= i < j < |names| ensures Name(names[i]) == Name(names[j]) <==> names[i] == names[j] {
      NameInjective(names[i], names[j]);
    }
  }

  lemma CleanCons(item: Item, items: seq<Item>)
    ensures CleanItems([item] + items) <==> CleanItem(item) && CleanItems(items)
  {
    var all := [item] + items;
    assert all[0] == item;
    assert forall i :: 0 <= i < |items| ==> all[i + 1] == items[i];
  }

  lemma {:induction false} CleanNodes(items: seq<Item>)
    ensures CleanItems(items) <==> CleanItems(NodesIn(items))
  {
    if items != [] {
      CleanNodes(items[1..]);
      CleanCons(items[0], items[1..]);
      CleanCons(items[0], NodesIn(items[1..]));
      assert [items[0]] + items[1..] == items;
      assert [] + NodesIn(items[1..]) == NodesIn(items[1..]);
    }
  }

  /**
   The finished text of any run reads back as exactly what was written, in order, precisely when every
   command name and tag is free of quotes and backslashes. What was written has one node per event.
   */
  lemma RecordingReadsBack(inOrder: bool, first: uint32, es: seq<Event>)
    ensures var items := Run(inOrder, first, es).items;
            (ReadDocument(Document(inOrder, items)) == Some((inOrder, items))
             <==> forall i :: 0 <= i < |es| ==> CleanLabel(Label(es[i])))
            && NodesIn(items) == NodeList(first, es)
  {
    hide ReadDocument, Document, CleanLabel, Label;
    var items := Run(inOrder, first, es).items;
    DocumentReadsBack(inOrder, items);
    NodesRecorded(inOrder, first, es);
    CleanNodes(items);
    assert forall i :: 0 <= i < |es| ==> NodeList(first, es)[i].caption == Label(es[i]);
  }
}
