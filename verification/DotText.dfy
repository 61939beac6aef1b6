/** The DOT text of a recording, and a reader for it. */
module DotText {
  import opened Text
  import opened Words
  import opened CommandBuffer

  function Name(id: NodeId): string {
    (if id.isInternal then "internal" else "syncpoint") + Digits(id.id)
  }

  function ShapeText(shape: Shape): string {
    match shape
    case Oval => " [shape=oval, label=\""
    case Octagon => " [shape=octagon, label=\""
  }

  function KindText(kind: EdgeKind): string {
    match kind
    case Explicit => " // explicit dependency\n"
    case Implicit => " [style=dashed] // implicit dependency\n"
    case BarrierDep => " [style=dotted] // barrier dependency\n"
  }

  const NODE_END := "\"]\n"

  function RenderItem(item: Item): string {
    match item
    case NodeItem(id, shape, caption) => "  " + (Name(id) + (ShapeText(shape) + (caption + NODE_END)))
    case EdgeItem(src, dst, kind) => "  " + (Name(src) + (" -> " + (Name(dst) + KindText(kind))))
  }

  function RenderItems(items: seq<Item>): string {
    FlatMap(RenderItem, items)
  }

  function OrderText(inOrder: bool): string {
    if inOrder then "in-order" else "out-of-order"
  }

  function Header(inOrder: bool): string {
    "digraph {\n" + ("  // " + (OrderText(inOrder) + " command-buffer\n"))
  }

  const FOOTER := "}\n"

  function Document(inOrder: bool, items: seq<Item>): string {
    Header(inOrder) + (RenderItems(items) + FOOTER)
  }

  // ---- The reader ----

  /**
   A caption that shows as written. Captions are labels, which DOT reads as escaped strings: a quote ends the
   quoted string, and a backslash, though the quoted string keeps it, begins an escape of the label.
   */
  predicate CleanLabel(s: string) { forall i :: 0 <= i < |s| ==> s[i] != '"' && s[i] != '\\' }

  predicate CleanItem(item: Item) { item.NodeItem? ==> CleanLabel(item.caption) }

  predicate CleanItems(items: seq<Item>) { forall i :: 0 <= i < |items| ==> CleanItem(items[i]) }

  function LabelSpan(s: string): (k: nat)
    ensures k <= |s| && CleanLabel(s[..k])
    ensures forall i :: 0 <= i < k ==> s[i] != '"' && s[i] != '\\'
    ensures k < |s| ==> s[k] == '"' || s[k] == '\\'
  {
    if s == [] || s[0] == '"' || s[0] == '\\' then 0
    else
      var k := 1 + LabelSpan(s[1..]);
      assert forall i :: 0 < i < k ==> s[i] == s[1..][i - 1];
      k
  }

  lemma LabelSpanOf(caption: string, rest: string)
    requires CleanLabel(caption) && rest != [] && rest[0] == '"'
    ensures LabelSpan(caption + rest) == |caption|
    ensures (caption + rest)[..|caption|] == caption && (caption + rest)[|caption|..] == rest
  {
    var s, k := caption + rest, LabelSpan(caption + rest);
    assert forall i :: 0 <= i < |caption| ==> s[i] == caption[i];
    assert s[|caption|] == rest[0];
  }

  function ReadNumber(isInternal: bool, s: string): Option<(NodeId, string)> {
    var k := DigitSpan(s);
    if k == 0 || Value(s[..k]) >= TWO32 then None
    else Some((NodeId(isInternal, Value(s[..k])), s[k..]))
  }

  function ReadName(s: string): Option<(NodeId, string)> {
    match StripPrefix("internal", s)
    case Some(r) => ReadNumber(true, r)
    case None =>
      match StripPrefix("syncpoint", s)
      case Some(r) => ReadNumber(false, r)
      case None => None
  }

  function ReadLabel(id: NodeId, shape: Shape, s: string): (r: Option<(Item, string)>)
    ensures r.Some? ==> CleanItem(r.value.0)
  {
    var k := LabelSpan(s);
    match StripPrefix("\"]\n", s[k..])
    case Some(r) => Some((NodeItem(id, shape, s[..k]), r))
    case None => None
  }

  function ReadKind(src: NodeId, dst: NodeId, s: string): (r: Option<(Item, string)>)
    ensures r.Some? ==> CleanItem(r.value.0)
  {
    match StripPrefix(" // explicit dependency\n", s)
    case Some(r) => Some((EdgeItem(src, dst, Explicit), r))
    case None =>
      match StripPrefix(" [style=dashed] // implicit dependency\n", s)
      case Some(r) => Some((EdgeItem(src, dst, Implicit), r))
      case None =>
        match StripPrefix(" [style=dotted] // barrier dependency\n", s)
        case Some(r) => Some((EdgeItem(src, dst, BarrierDep), r))
        case None => None
  }

  function ReadAfterName(id: NodeId, s: string): (r: Option<(Item, string)>)
    ensures r.Some? ==> CleanItem(r.value.0)
  {
    match StripPrefix(" -> ", s)
    case Some(r) =>
      (match ReadName(r)
       case Some((dst, r2)) => ReadKind(id, dst, r2)
       case None => None)
    case None =>
      match StripPrefix(" [shape=oval, label=\"", s)
      case Some(r) => ReadLabel(id, Oval, r)
      case None =>
        match StripPrefix(" [shape=octagon, label=\"", s)
        case Some(r) => ReadLabel(id, Octagon, r)
        case None => None
  }

  function ReadItem(s: string): (r: Option<(Item, string)>)
    ensures r.Some? ==> CleanItem(r.value.0)
  {
    match StripPrefix("  ", s)
    case None => None
    case Some(r) =>
      match ReadName(r)
      case Some((id, r2)) => ReadAfterName(id, r2)
      case None => None
  }

  function ReadItems(s: string): (r: Option<seq<Item>>)
    ensures r.Some? ==> CleanItems(r.value)
    decreases |s|
  {
    if s == "}\n" then Some([])
    else
      match ReadItem(s)
      case None => None
      case Some((item, rest)) =>
        if |rest| >= |s| then None
        else
          match ReadItems(rest)
          case Some(items) => Some([item] + items)
          case None => None
  }

  function ReadDocument(s: string): Option<(bool, seq<Item>)> {
    match StripPrefix("digraph {\n  // in-order command-buffer\n", s)
    case Some(r) =>
      (match ReadItems(r) case Some(items) => Some((true, items)) case None => None)
    case None =>
      match StripPrefix("digraph {\n  // out-of-order command-buffer\n", s)
      case Some(r) =>
        (match ReadItems(r) case Some(items) => Some((false, items)) case None => None)
      case None => None
  }

  // ---- The reader undoes the printer ----

  lemma HeaderLiterals()
    ensures Header(true) == "digraph {\n  // in-order command-buffer\n"
    ensures Header(false) == "digraph {\n  // out-of-order command-buffer\n"
  {
    InOrderLine();
    OutOfOrderLine();
    InOrderHeader();
    OutOfOrderHeader();
    hide OrderText;
  }

  lemma InOrderLine()
    ensures "  // " + (OrderText(true) + " command-buffer\n") == "  // in-order command-buffer\n"
  {
    assert OrderText(true) + " command-buffer\n" == "in-order command-buffer\n";
  }

  lemma OutOfOrderLine()
    ensures "  // " + (OrderText(false) + " command-buffer\n") == "  // out-of-order command-buffer\n"
  {
    assert OrderText(false) + " command-buffer\n" == "out-of-order command-buffer\n";
  }

  lemma InOrderHeader()
    ensures "digraph {\n" + "  // in-order command-buffer\n" == "digraph {\n  // in-order command-buffer\n"
  {
  }

  lemma OutOfOrderHeader()
    ensures "digraph {\n" + "  // out-of-order command-buffer\n" == "digraph {\n  // out-of-order command-buffer\n"
  {
  }

  lemma ReadNameOf(id: NodeId, rest: string)
    requires !StartsWithDigit(rest)
    ensures ReadName(Name(id) + rest) == Some((id, rest))
  {
    DigitsRoundTrip(id.id);
    DigitSpanOf(Digits(id.id), rest);
    var digits := Digits(id.id) + rest;
    if id.isInternal {
      Regroup("internal", Digits(id.id), rest);
      StripPrefixOf("internal", digits);
    } else {
      Regroup("syncpoint", Digits(id.id), rest);
      StripPrefixOf("syncpoint", digits);
      assert ("syncpoint" + digits)[0] == 's' && "internal"[0] == 'i';
    }
  }

  lemma KindsDiffer(kind: EdgeKind, rest: string)
    ensures " // explicit dependency\n" <= KindText(kind) + rest <==> kind == Explicit
    ensures kind != Explicit ==>
              (" [style=dashed] // implicit dependency\n" <= KindText(kind) + rest <==> kind == Implicit)
  {
    var s := KindText(kind) + rest;
    match kind
    case Explicit =>
    case Implicit =>
      assert s[1] == '[' && " // explicit dependency\n"[1] == '/';
    case BarrierDep =>
      assert s[1] == '[' && " // explicit dependency\n"[1] == '/';
      assert s[9] == 'o' && " [style=dashed] // implicit dependency\n"[9] == 'a';
  }

  lemma ReadKindOf(src: NodeId, dst: NodeId, kind: EdgeKind, rest: string)
    ensures ReadKind(src, dst, KindText(kind) + rest) == Some((EdgeItem(src, dst, kind), rest))
  {
    KindsDiffer(kind, rest);
    StripPrefixOf(KindText(kind), rest);
  }

  lemma ReadLabelOf(id: NodeId, shape: Shape, caption: string, rest: string)
    requires CleanLabel(caption)
    ensures ReadLabel(id, shape, caption + (NODE_END + rest)) == Some((NodeItem(id, shape, caption), rest))
  {
    LabelSpanOf(caption, NODE_END + rest);
    StripPrefixOf(NODE_END, rest);
  }

  lemma ReadShape(id: NodeId, shape: Shape, tail: string)
    ensures ReadAfterName(id, ShapeText(shape) + tail) == ReadLabel(id, shape, tail)
  {
    hide ReadLabel;
    var s := ShapeText(shape) + tail;
    assert s[1] == '[' && " -> "[1] == '-';
    StripPrefixOf(ShapeText(shape), tail);
    if shape.Octagon? {
      assert s[9] == 'c' && " [shape=oval, label=\""[9] == 'v';
    }
  }

  lemma ReadNodeTail(id: NodeId, shape: Shape, caption: string, rest: string)
    requires CleanLabel(caption)
    ensures ReadAfterName(id, ShapeText(shape) + (caption + (NODE_END + rest)))
         == Some((NodeItem(id, shape, caption), rest))
  {
    hide ReadAfterName, ReadLabel, ShapeText;
    ReadShape(id, shape, caption + (NODE_END + rest));
    ReadLabelOf(id, shape, caption, rest);
  }

  lemma ReadNodeOf(id: NodeId, shape: Shape, caption: string, rest: string)
    requires CleanLabel(caption)
    ensures ReadItem(RenderItem(NodeItem(id, shape, caption)) + rest) == Some((NodeItem(id, shape, caption), rest))
  {
    var tail := ShapeText(shape) + (caption + (NODE_END + rest));
    Regroup5("  ", Name(id), ShapeText(shape), caption, NODE_END, rest);
    StripPrefixOf("  ", Name(id) + tail);
    ReadNameOf(id, tail);
    ReadNodeTail(id, shape, caption, rest);
  }

  lemma ReadEdgeOf(src: NodeId, dst: NodeId, kind: EdgeKind, rest: string)
    ensures ReadItem(RenderItem(EdgeItem(src, dst, kind)) + rest) == Some((EdgeItem(src, dst, kind), rest))
  {
    var last := KindText(kind) + rest;
    var tail := " -> " + (Name(dst) + last);
    Regroup5("  ", Name(src), " -> ", Name(dst), KindText(kind), rest);
    StripPrefixOf("  ", Name(src) + tail);
    ReadNameOf(src, tail);
    StripPrefixOf(" -> ", Name(dst) + last);
    ReadNameOf(dst, last);
    ReadKindOf(src, dst, kind, rest);
  }

  lemma ReadItemOf(item: Item, rest: string)
    requires CleanItem(item)
    ensures ReadItem(RenderItem(item) + rest) == Some((item, rest))
  {
    match item
    case NodeItem(id, shape, caption) => ReadNodeOf(id, shape, caption, rest);
    case EdgeItem(src, dst, kind) => ReadEdgeOf(src, dst, kind, rest);
  }

  lemma {:induction false} ReadItemsOf(items: seq<Item>)
    requires CleanItems(items)
    ensures ReadItems(RenderItems(items) + FOOTER) == Some(items)
  {
    if items == [] {
      assert RenderItems(items) + FOOTER == FOOTER;
    } else {
      assert CleanItem(items[0]);
      ReadItemsOf(items[1..]);
      ReadFirstItem(items[0], RenderItems(items[1..]) + FOOTER);
      hide RenderItem, ReadItems, CleanItem;
      Regroup(RenderItem(items[0]), RenderItems(items[1..]), FOOTER);
      assert [items[0]] + items[1..] == items;
    }
  }

  lemma ReadFirstItem(item: Item, rest: string)
    requires CleanItem(item) && ReadItems(rest).Some?
    ensures ReadItems(RenderItem(item) + rest) == Some([item] + ReadItems(rest).value)
  {
    ReadItemOf(item, rest);
    ItemStart(item);
    hide RenderItem, ReadItem, CleanItem;
  }

  lemma ItemStart(item: Item)
    ensures RenderItem(item) != "" && RenderItem(item)[0] == ' '
  {
  }

  /**
   The text of a recording reads back as exactly the recorded nodes, labels and edges, in order,
   precisely when no caption contains a quote or a backslash: the printer does not escape them.
   */
  lemma DocumentReadsBack(inOrder: bool, items: seq<Item>)
    ensures ReadDocument(Document(inOrder, items)) == Some((inOrder, items)) <==> CleanItems(items)
  {
    var s := Document(inOrder, items);
    var body := RenderItems(items) + FOOTER;
    HeaderLiterals();
    StripPrefixOf(Header(inOrder), body);
    if !inOrder {
      assert s[15] == 'o' && Header(true)[15] == 'i';
    }
    if CleanItems(items) {
      ReadItemsOf(items);
    }
  }
}
