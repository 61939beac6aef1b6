/** The metric table: a row of names, a row of units, and a row of values for every result. */
module MetricTable {
  import opened Text
  import opened Words

  datatype TypedValue = UInt64(n: uint64) | UInt32(w: uint32) | Bool(b: bool) | Float(f: real) | Other

  datatype Metric = Metric(symbol: string, units: Option<string>)

  datatype MetricSet = MetricSet(metrics: seq<Metric>, infos: seq<Metric>, ioInfos: seq<Metric>,
                                 includeMax: bool, streaming: bool)

  /** The computed results: a block of metrics and information values for each report. */
  datatype Results = Results(numResults: nat, values: seq<TypedValue>, maxValues: seq<TypedValue>, ioValues: seq<TypedValue>)

  /** How the library formats a float. */
  type Format = real -> string

  // ---- Columns ----

  datatype Column = Kernel | MetricColumn(i: nat) | MaxColumn(i: nat) | Separator | InfoColumn(i: nat) | IoColumn(i: nat)

  function MetricColumns(count: nat, includeMax: bool): seq<Column> {
    if count == 0 then []
    else MetricColumns(count - 1, includeMax) + [MetricColumn(count - 1)] + (if includeMax then [MaxColumn(count - 1)] else [])
  }

  function InfoColumns(count: nat): seq<Column> {
    if count == 0 then [] else InfoColumns(count - 1) + [InfoColumn(count - 1)]
  }

  function IoColumns(count: nat): seq<Column> {
    if count == 0 then [] else IoColumns(count - 1) + [IoColumn(count - 1)]
  }

  /** What every row is about, field by field. */
  function Columns(m: MetricSet): seq<Column> {
    [Kernel] + MetricColumns(|m.metrics|, m.includeMax) + [Separator] + InfoColumns(|m.infos|)
    + (if m.streaming then [Separator] + IoColumns(|m.ioInfos|) else [])
  }

  predicate InRange(m: MetricSet, c: Column) {
    match c
    case Kernel => true
    case MetricColumn(i) => i < |m.metrics|
    case MaxColumn(i) => m.includeMax && i < |m.metrics|
    case Separator => true
    case InfoColumn(i) => i < |m.infos|
    case IoColumn(i) => m.streaming && i < |m.ioInfos|
  }

  predicate AllInRange(m: MetricSet, cs: seq<Column>) { forall k :: 0 <= k < |cs| ==> InRange(m, cs[k]) }

  lemma {:induction false} MetricColumnsInRange(m: MetricSet, count: nat)
    requires count <= |m.metrics|
    ensures AllInRange(m, MetricColumns(count, m.includeMax))
  {
    if count > 0 {
      MetricColumnsInRange(m, count - 1);
    }
  }

  lemma {:induction false} InfoColumnsInRange(m: MetricSet, count: nat)
    requires count <= |m.infos|
    ensures AllInRange(m, InfoColumns(count))
  {
    if count > 0 {
      InfoColumnsInRange(m, count - 1);
    }
  }

  lemma {:induction false} IoColumnsInRange(m: MetricSet, count: nat)
    requires m.streaming && count <= |m.ioInfos|
    ensures AllInRange(m, IoColumns(count))
  {
    if count > 0 {
      IoColumnsInRange(m, count - 1);
    }
  }

  lemma ColumnsInRange(m: MetricSet)
    ensures AllInRange(m, Columns(m))
  {
    MetricColumnsInRange(m, |m.metrics|);
    InfoColumnsInRange(m, |m.infos|);
    if m.streaming {
      IoColumnsInRange(m, |m.ioInfos|);
    }
  }

  // ---- What each row has in a column ----

  function NameIn(m: MetricSet, c: Column): string
    requires InRange(m, c)
  {
    match c
    case Kernel => "kernel"
    case MetricColumn(i) => m.metrics[i].symbol
    case MaxColumn(i) => "max_" + m.metrics[i].symbol
    case Separator => ""
    case InfoColumn(i) => m.infos[i].symbol
    case IoColumn(i) => m.ioInfos[i].symbol
  }

  function UnitText(metric: Metric): string {
    if metric.units.Some? then metric.units.value else " "
  }

  function UnitIn(m: MetricSet, c: Column): string
    requires InRange(m, c)
  {
    match c
    case Kernel => " "
    case MetricColumn(i) => UnitText(m.metrics[i])
    case MaxColumn(_) => " "
    case Separator => ""
    case InfoColumn(i) => UnitText(m.infos[i])
    case IoColumn(i) => UnitText(m.ioInfos[i])
  }

  /** What the printer writes for a value: a value of another type writes nothing, not even a comma. */
  datatype Cell = Shown(text: string) | Dropped

  function Show(show: Format, v: TypedValue): Cell {
    match v
    case UInt64(n) => Shown(Digits(n))
    case UInt32(w) => Shown(Digits(w))
    case Bool(b) => Shown(if b then "TRUE" else "FALSE")
    case Float(f) => Shown(show(f))
    case Other => Dropped
  }

  function CellText(c: Cell): string {
    match c
    case Shown(text) => text + ","
    case Dropped => ""
  }

  function Width(m: MetricSet): nat { |m.metrics| + |m.infos| }

  /** The arrays are as long as the calls that fill them make them. */
  predicate Sized(m: MetricSet, r: Results) {
    && Width(m) * r.numResults <= |r.values|
    && (m.includeMax ==> |m.metrics| * r.numResults <= |r.maxValues|)
    && (m.streaming ==> |r.ioValues| == |m.ioInfos|)
  }

  /** Row `k`, column `i` of a table stored row by row is within it. */
  lemma FlatIndex(width: nat, rows: nat, k: nat, i: nat)
    requires k < rows && i < width
    ensures 0 <= width * k + i < width * rows
  {
    assert width * (k + 1) <= width * rows;
    assert width * (k + 1) == width * k + width;
  }

  function ValueAt(m: MetricSet, r: Results, result: nat, i: nat): TypedValue
    requires Sized(m, r) && result < r.numResults && i < Width(m)
  {
    FlatIndex(Width(m), r.numResults, result, i);
    r.values[Width(m) * result + i]
  }

  function MaxAt(m: MetricSet, r: Results, result: nat, i: nat): TypedValue
    requires Sized(m, r) && m.includeMax && result < r.numResults && i < |m.metrics|
  {
    FlatIndex(|m.metrics|, r.numResults, result, i);
    r.maxValues[|m.metrics| * result + i]
  }

  /** Where a row takes the value in a column from: an index of one of the three arrays, or none. */
  datatype Source = FromValues(index: nat) | FromMax(index: nat) | FromIo(index: nat) | Fixed

  function SourceOf(m: MetricSet, result: nat, c: Column): Source {
    match c
    case Kernel => Fixed
    case MetricColumn(i) => FromValues(Width(m) * result + i)
    case MaxColumn(i) => FromMax(|m.metrics| * result + i)
    case Separator => Fixed
    case InfoColumn(i) => FromValues(Width(m) * result + |m.metrics| + i)
    case IoColumn(i) => FromIo(i)
  }

  function CellIn(m: MetricSet, show: Format, name: string, r: Results, result: nat, c: Column): Cell
    requires Sized(m, r) && result < r.numResults && InRange(m, c)
  {
    match c
    case Kernel => Shown(name)
    case MetricColumn(i) => Show(show, ValueAt(m, r, result, i))
    case MaxColumn(i) => Show(show, MaxAt(m, r, result, i))
    case Separator => Shown("")
    case InfoColumn(i) => Show(show, ValueAt(m, r, result, |m.metrics| + i))
    case IoColumn(i) => Show(show, r.ioValues[i])
  }

  /** What a row shows in a column is what its source holds, and nothing else of the results. */
  lemma CellShowsSource(m: MetricSet, show: Format, name: string, r: Results, result: nat, c: Column)
    requires Sized(m, r) && result < r.numResults && InRange(m, c)
    ensures match SourceOf(m, result, c)
            case FromValues(index) => index < |r.values| && CellIn(m, show, name, r, result, c) == Show(show, r.values[index])
            case FromMax(index) => index < |r.maxValues| && CellIn(m, show, name, r, result, c) == Show(show, r.maxValues[index])
            case FromIo(index) => index < |r.ioValues| && CellIn(m, show, name, r, result, c) == Show(show, r.ioValues[index])
            case Fixed => CellIn(m, show, name, r, result, c) == Shown(if c.Kernel? then name else "")
  {
    match c
    case MetricColumn(i) => FlatIndex(Width(m), r.numResults, result, i);
    case MaxColumn(i) => FlatIndex(|m.metrics|, r.numResults, result, i);
    case InfoColumn(i) => FlatIndex(Width(m), r.numResults, result, |m.metrics| + i);
    case _ =>
  }

  // ---- Every value is printed once ----

  /** How many columns `count` metrics take. */
  function Spread(includeMax: bool, count: nat): nat { if includeMax then 2 * count else count }

  /** The position of a column that is about a metric or a piece of information. */
  function PositionOf(m: MetricSet, c: Column): nat {
    var n := Spread(m.includeMax, |m.metrics|);
    match c
    case Kernel => 0
    case MetricColumn(i) => 1 + Spread(m.includeMax, i)
    case MaxColumn(i) => 2 + Spread(m.includeMax, i)
    case Separator => 1 + n
    case InfoColumn(i) => 2 + n + i
    case IoColumn(i) => 3 + n + |m.infos| + i
  }

  lemma {:induction false} MetricColumnsAt(count: nat, includeMax: bool)
    ensures var cs := MetricColumns(count, includeMax);
            |cs| == Spread(includeMax, count)
            && forall k :: 0 <= k < |cs| ==> cs[k] == if !includeMax then MetricColumn(k)
                                                      else if k % 2 == 0 then MetricColumn(k / 2) else MaxColumn(k / 2)
  {
    if count > 0 {
      MetricColumnsAt(count - 1, includeMax);
    }
  }

  lemma {:induction false} InfoColumnsAt(count: nat)
    ensures |InfoColumns(count)| == count && forall k :: 0 <= k < count ==> InfoColumns(count)[k] == InfoColumn(k)
  {
    if count > 0 {
      InfoColumnsAt(count - 1);
    }
  }

  lemma {:induction false} IoColumnsAt(count: nat)
    ensures |IoColumns(count)| == count && forall k :: 0 <= k < count ==> IoColumns(count)[k] == IoColumn(k)
  {
    if count > 0 {
      IoColumnsAt(count - 1);
    }
  }

  /** What stands where in a row made of these parts. */
  lemma RowAt(ms: seq<Column>, infos: seq<Column>, ios: seq<Column>, k: nat)
    ensures var cs := [Kernel] + ms + [Separator] + infos + ios;
            |cs| == 2 + |ms| + |infos| + |ios|
            && (k < |cs| ==>
                  cs[k] == if k == 0 then Kernel else if k < 1 + |ms| then ms[k - 1] else if k == 1 + |ms| then Separator
                           else if k < 2 + |ms| + |infos| then infos[k - 2 - |ms|] else ios[k - 2 - |ms| - |infos|])
  {
  }

  lemma ColumnsAt(m: MetricSet, k: nat)
    requires k < |Columns(m)|
    ensures var n := Spread(m.includeMax, |m.metrics|);
            Columns(m)[k] == if k == 0 then Kernel
                             else if k < 1 + n then
                               (if !m.includeMax then MetricColumn(k - 1)
                                else if k % 2 == 1 then MetricColumn((k - 1) / 2) else MaxColumn((k - 1) / 2))
                             else if k == 1 + n then Separator
                             else if k < 2 + n + |m.infos| then InfoColumn(k - 2 - n)
                             else if k == 2 + n + |m.infos| then Separator
                             else IoColumn(k - 3 - n - |m.infos|)
  {
    hide MetricColumns, InfoColumns, IoColumns, Spread;
    MetricColumnsAt(|m.metrics|, m.includeMax);
    InfoColumnsAt(|m.infos|);
    IoColumnsAt(|m.ioInfos|);
    RowAt(MetricColumns(|m.metrics|, m.includeMax), InfoColumns(|m.infos|),
          if m.streaming then [Separator] + IoColumns(|m.ioInfos|) else [], k);
  }

  lemma ColumnsCount(m: MetricSet)
    ensures |Columns(m)| == 2 + Spread(m.includeMax, |m.metrics|) + |m.infos| + (if m.streaming then 1 + |m.ioInfos| else 0)
  {
    hide MetricColumns, InfoColumns, IoColumns;
    MetricColumnsAt(|m.metrics|, m.includeMax);
    InfoColumnsAt(|m.infos|);
    IoColumnsAt(|m.ioInfos|);
  }

  /** Every column in range stands at its position and, unless it is a separator, nowhere else. */
  lemma ColumnAt(m: MetricSet, k: nat, c: Column)
    requires k < |Columns(m)| && !c.Separator?
    ensures Columns(m)[k] == c <==> InRange(m, c) && k == PositionOf(m, c)
  {
    ColumnsAt(m, k);
    ColumnsCount(m);
    hide Columns;
  }

  lemma PositionInRow(m: MetricSet, c: Column)
    requires InRange(m, c)
    ensures PositionOf(m, c) < |Columns(m)|
  {
    ColumnsCount(m);
    hide Columns;
  }

  /** Field `k` of row `result`, among `rows` rows, takes its value from `source`. */
  predicate Reads(m: MetricSet, rows: nat, result: nat, k: nat, source: Source) {
    result < rows && k < |Columns(m)| && SourceOf(m, result, Columns(m)[k]) == source
  }

  /** The column and row that read `source`: the only candidates there are. */
  function ReaderOf(m: MetricSet, source: Source): (nat, Column) {
    match source
    case FromValues(index) =>
      if Width(m) == 0 then (0, Separator)
      else
        var i := index % Width(m);
        (index / Width(m), if i < |m.metrics| then MetricColumn(i) else InfoColumn(i - |m.metrics|))
    case FromMax(index) =>
      if |m.metrics| == 0 then (0, Separator) else (index / |m.metrics|, MaxColumn(index % |m.metrics|))
    case FromIo(index) => (0, IoColumn(index))
    case Fixed => (0, Separator)
  }

  lemma DivMod(width: nat, q: nat, i: nat)
    requires i < width
    ensures (width * q + i) / width == q && (width * q + i) % width == i
  {
    var n := width * q + i;
    assert n == width * (n / width) + n % width;
    IndexOnce(width, n / width, n % width, q, i);
  }

  lemma IndexOnce(width: nat, k: nat, i: nat, k': nat, i': nat)
    requires i < width && i' < width
    ensures width * k + i == width * k' + i' <==> k == k' && i == i'
  {
    if k < k' {
      assert width * (k + 1) <= width * k';
      assert width * (k + 1) == width * k + width;
    } else if k > k' {
      assert width * (k' + 1) <= width * k;
      assert width * (k' + 1) == width * k' + width;
    }
  }

  /** A column in range that takes its value from an array is the reader of the cell it reads. */
  lemma ReadsFromReader(m: MetricSet, result: nat, c: Column)
    requires InRange(m, c) && !SourceOf(m, result, c).Fixed?
    ensures var reader := ReaderOf(m, SourceOf(m, result, c));
            reader.1 == c && (c.IoColumn? || reader.0 == result)
  {
    match c
    case MetricColumn(i) => DivMod(Width(m), result, i);
    case MaxColumn(i) => DivMod(|m.metrics|, result, i);
    case InfoColumn(i) =>
      DivMod(Width(m), result, |m.metrics| + i);
      assert SourceOf(m, result, c).index == Width(m) * result + (|m.metrics| + i);
    case IoColumn(_) =>
  }

  lemma MulMono(width: nat, a: nat, b: nat)
    requires a <= b
    ensures width * a <= width * b
  {
  }

  /** The cell `index` of a stored table has a row and a place in it. */
  lemma CellHasReader(width: nat, rows: nat, index: nat)
    requires index < width * rows
    ensures width > 0 && index / width < rows && index % width < width && width * (index / width) + index % width == index
  {
    assert width > 0;
    if rows <= index / width {
      MulMono(width, rows, index / width);
    }
  }

  /** The cells of the result arrays that the calls fill for `rows` results and this metric set prints. */
  predicate Filled(m: MetricSet, rows: nat, source: Source) {
    match source
    case FromValues(index) => index < Width(m) * rows
    case FromMax(index) => m.includeMax && index < |m.metrics| * rows
    case FromIo(index) => m.streaming && rows > 0 && index < |m.ioInfos|
    case Fixed => false
  }

  lemma ReaderReads(m: MetricSet, rows: nat, source: Source)
    requires Filled(m, rows, source)
    ensures var (result, c) := ReaderOf(m, source);
            InRange(m, c) && SourceOf(m, result, c) == source && (source.FromIo? || result < rows)
  {
    match source
    case FromValues(index) => CellHasReader(Width(m), rows, index);
    case FromMax(index) => CellHasReader(|m.metrics|, rows, index);
    case FromIo(_) =>
  }

  lemma FlatInside(m: MetricSet, rows: nat, result: nat, c: Column)
    requires InRange(m, c) && result < rows && !SourceOf(m, result, c).Fixed?
    ensures Filled(m, rows, SourceOf(m, result, c))
  {
    match c
    case MetricColumn(i) => FlatIndex(Width(m), rows, result, i);
    case MaxColumn(i) => FlatIndex(|m.metrics|, rows, result, i);
    case InfoColumn(i) => FlatIndex(Width(m), rows, result, |m.metrics| + i);
    case IoColumn(_) =>
  }

  /** A field that takes its value from an array is the one that its source says. */
  lemma ReaderIsOnly(m: MetricSet, rows: nat, result: nat, k: nat, source: Source)
    requires !source.Fixed? && Reads(m, rows, result, k, source)
    ensures Filled(m, rows, source) && k == PositionOf(m, ReaderOf(m, source).1)
    ensures source.FromIo? || result == ReaderOf(m, source).0
  {
    hide Columns, InRange, Filled, ReaderOf;
    ColumnsInRange(m);
    var c := Columns(m)[k];
    ReadsFromReader(m, result, c);
    ColumnOfSource(m, result, c);
    ColumnAt(m, k, c);
    FlatInside(m, rows, result, c);
  }

  lemma ReaderExists(m: MetricSet, rows: nat, result: nat, source: Source)
    requires Filled(m, rows, source) && (source.FromIo? || result == ReaderOf(m, source).0) && result < rows
    ensures Reads(m, rows, result, PositionOf(m, ReaderOf(m, source).1), source)
  {
    hide Columns, InRange, ReaderOf, PositionOf;
    var (owner, c) := ReaderOf(m, source);
    ReaderReads(m, rows, source);
    ColumnOfSource(m, owner, c);
    PositionInRow(m, c);
    ColumnAt(m, PositionOf(m, c), c);
  }

  /**
   What the printed rows read: every metric and information value in exactly one field of exactly one row, the
   same of every maximum value when maximum values are printed, every information value of the stream in exactly
   one field of each row, and nothing else.
   */
  lemma EveryValuePrintedOnce(m: MetricSet, rows: nat, source: Source)
    requires !source.Fixed?
    ensures Filled(m, rows, source) <==> exists result: nat, k: nat :: Reads(m, rows, result, k, source)
    ensures forall result: nat, k: nat, result': nat, k': nat ::
              Reads(m, rows, result, k, source) && Reads(m, rows, result', k', source)
              ==> k == k' && (source.FromIo? || result == result')
    ensures source.FromIo? ==> forall result: nat, result': nat, k: nat ::
              Reads(m, rows, result, k, source) && result' < rows ==> Reads(m, rows, result', k, source)
  {
    hide Columns, Filled, ReaderOf, PositionOf, Reads;
    var (owner, c) := ReaderOf(m, source);
    if Filled(m, rows, source) {
      ReaderReads(m, rows, source);
      if source.FromIo? {
        SomeRow(m, rows, source);
      }
      ReaderExists(m, rows, if source.FromIo? then 0 else owner, source);
    }
    forall result: nat, k: nat | Reads(m, rows, result, k, source)
      ensures k == PositionOf(m, c) && (source.FromIo? || result == owner) && Filled(m, rows, source)
    {
      ReaderIsOnly(m, rows, result, k, source);
    }
    forall result: nat | source.FromIo? && Filled(m, rows, source) && result < rows
      ensures Reads(m, rows, result, PositionOf(m, c), source)
    {
      ReaderExists(m, rows, result, source);
    }
  }

  lemma SomeRow(m: MetricSet, rows: nat, source: Source)
    requires Filled(m, rows, source) && source.FromIo?
    ensures rows > 0
  {
  }

  lemma ColumnOfSource(m: MetricSet, result: nat, c: Column)
    requires !SourceOf(m, result, c).Fixed?
    ensures !c.Separator? && (SourceOf(m, result, c).FromIo? <==> c.IoColumn?)
  {
  }

  // ---- Rows as cells ----

  function NameCells(m: MetricSet, cs: seq<Column>): seq<Cell>
    requires AllInRange(m, cs)
  {
    seq(|cs|, k requires 0 <= k < |cs| => Shown(NameIn(m, cs[k])))
  }

  function UnitCells(m: MetricSet, cs: seq<Column>): seq<Cell>
    requires AllInRange(m, cs)
  {
    seq(|cs|, k requires 0 <= k < |cs| => Shown(UnitIn(m, cs[k])))
  }

  function ValueCells(m: MetricSet, show: Format, name: string, r: Results, result: nat, cs: seq<Column>): seq<Cell>
    requires Sized(m, r) && result < r.numResults && AllInRange(m, cs)
  {
    seq(|cs|, k requires 0 <= k < |cs| => CellIn(m, show, name, r, result, cs[k]))
  }

  function RowText(cells: seq<Cell>): string { FlatMap(CellText, cells) }

  function ValueRows(m: MetricSet, show: Format, name: string, r: Results, count: nat): string
    requires Sized(m, r) && count <= r.numResults && AllInRange(m, Columns(m))
  {
    if count == 0 then ""
    else ValueRows(m, show, name, r, count - 1) + (RowText(ValueCells(m, show, name, r, count - 1, Columns(m))) + "\n")
  }

  // ---- The printers ----

  /** One more cell on the row being printed. */
  lemma RowSnoc(cells: seq<Cell>, cell: Cell)
    ensures RowText(cells + [cell]) == RowText(cells) + CellText(cell)
  {
    FlatMapSnoc(CellText, cells, cell);
  }

  /** Appends a cell to the row printed so far. */
  method PrintCell(os: string, ghost cells: seq<Cell>, cell: Cell) returns (os': string)
    requires os == RowText(cells)
    ensures os' == RowText(cells + [cell])
  {
    RowSnoc(cells, cell);
    os' := match cell case Shown(text) => os + (text + ",") case Dropped => os;
    AppendEmpty(os);
  }

  method PrintMetricNames(m: MetricSet) returns (os: string)
    ensures AllInRange(m, Columns(m)) && os == RowText(NameCells(m, Columns(m))) + "\n"
  {
    ColumnsInRange(m);
    hide RowText;
    ghost var cs: seq<Column> := [];
    EmptyRow();
    os := PrintCell("", [], Shown("kernel"));
    cs := [Kernel];
    assert NameCells(m, cs) == [] + [Shown("kernel")];
    for i := 0 to |m.metrics|
      invariant cs == [Kernel] + MetricColumns(i, m.includeMax) && AllInRange(m, cs)
      invariant os == RowText(NameCells(m, cs))
    {
      os := PrintCell(os, NameCells(m, cs), Shown(m.metrics[i].symbol));
      NameCellsSnoc(m, cs, MetricColumn(i));
      cs := cs + [MetricColumn(i)];
      if m.includeMax {
        os := PrintCell(os, NameCells(m, cs), Shown("max_" + m.metrics[i].symbol));
        NameCellsSnoc(m, cs, MaxColumn(i));
        cs := cs + [MaxColumn(i)];
      }
    }
    os := PrintCell(os, NameCells(m, cs), Shown(""));
    NameCellsSnoc(m, cs, Separator);
    cs := cs + [Separator];
    ghost var head := cs;
    for i := 0 to |m.infos|
      invariant cs == head + InfoColumns(i) && AllInRange(m, cs)
      invariant os == RowText(NameCells(m, cs))
    {
      os := PrintCell(os, NameCells(m, cs), Shown(m.infos[i].symbol));
      NameCellsSnoc(m, cs, InfoColumn(i));
      cs := cs + [InfoColumn(i)];
    }
    if m.streaming {
      head := cs;
      os := PrintCell(os, NameCells(m, cs), Shown(""));
      NameCellsSnoc(m, cs, Separator);
      cs := cs + [Separator];
      for i := 0 to |m.ioInfos|
        invariant cs == head + ([Separator] + IoColumns(i)) && AllInRange(m, cs)
        invariant os == RowText(NameCells(m, cs))
      {
        os := PrintCell(os, NameCells(m, cs), Shown(m.ioInfos[i].symbol));
        NameCellsSnoc(m, cs, IoColumn(i));
        cs := cs + [IoColumn(i)];
      }
    }
    assert cs == Columns(m);
    os := os + "\n";
  }

  method PrintMetricUnits(m: MetricSet) returns (os: string)
    ensures AllInRange(m, Columns(m)) && os == RowText(UnitCells(m, Columns(m))) + "\n"
  {
    ColumnsInRange(m);
    hide RowText;
    ghost var cs: seq<Column> := [];
    EmptyRow();
    os := PrintCell("", [], Shown(" "));
    cs := [Kernel];
    assert UnitCells(m, cs) == [] + [Shown(" ")];
    for i := 0 to |m.metrics|
      invariant cs == [Kernel] + MetricColumns(i, m.includeMax) && AllInRange(m, cs)
      invariant os == RowText(UnitCells(m, cs))
    {
      os := PrintCell(os, UnitCells(m, cs), Shown(UnitText(m.metrics[i])));
      UnitCellsSnoc(m, cs, MetricColumn(i));
      cs := cs + [MetricColumn(i)];
      if m.includeMax {
        os := PrintCell(os, UnitCells(m, cs), Shown(" "));
        UnitCellsSnoc(m, cs, MaxColumn(i));
        cs := cs + [MaxColumn(i)];
      }
    }
    os := PrintCell(os, UnitCells(m, cs), Shown(""));
    UnitCellsSnoc(m, cs, Separator);
    cs := cs + [Separator];
    ghost var head := cs;
    for i := 0 to |m.infos|
      invariant cs == head + InfoColumns(i) && AllInRange(m, cs)
      invariant os == RowText(UnitCells(m, cs))
    {
      os := PrintCell(os, UnitCells(m, cs), Shown(UnitText(m.infos[i])));
      UnitCellsSnoc(m, cs, InfoColumn(i));
      cs := cs + [InfoColumn(i)];
    }
    if m.streaming {
      head := cs;
      os := PrintCell(os, UnitCells(m, cs), Shown(""));
      UnitCellsSnoc(m, cs, Separator);
      cs := cs + [Separator];
      for i := 0 to |m.ioInfos|
        invariant cs == head + ([Separator] + IoColumns(i)) && AllInRange(m, cs)
        invariant os == RowText(UnitCells(m, cs))
      {
        os := PrintCell(os, UnitCells(m, cs), Shown(UnitText(m.ioInfos[i])));
        UnitCellsSnoc(m, cs, IoColumn(i));
        cs := cs + [IoColumn(i)];
      }
    }
    assert cs == Columns(m);
    os := os + "\n";
  }

  method PrintMetricValues(m: MetricSet, show: Format, name: string, r: Results) returns (os: string)
    requires Sized(m, r)
    ensures AllInRange(m, Columns(m)) && os == ValueRows(m, show, name, r, r.numResults)
  {
    ColumnsInRange(m);
    os := "";
    for result := 0 to r.numResults
      invariant os == ValueRows(m, show, name, r, result)
    {
      var row := PrintResult(m, show, name, r, result);
      os := os + row;
    }
  }

  method PrintResult(m: MetricSet, show: Format, name: string, r: Results, result: nat) returns (os: string)
    requires Sized(m, r) && result < r.numResults
    ensures AllInRange(m, Columns(m)) && os == RowText(ValueCells(m, show, name, r, result, Columns(m))) + "\n"
  {
    ColumnsInRange(m);
    hide RowText, Show, Sized;
    ghost var cs: seq<Column> := [];
    EmptyRow();
    os := PrintCell("", [], Shown(name));
    cs := [Kernel];
    ValueCellsSnoc(m, show, name, r, result, [], Kernel);
    assert [] + cs == cs && ValueCells(m, show, name, r, result, []) == [];
    for i := 0 to |m.metrics|
      invariant cs == [Kernel] + MetricColumns(i, m.includeMax) && AllInRange(m, cs)
      invariant os == RowText(ValueCells(m, show, name, r, result, cs))
    {
      os := PrintCell(os, ValueCells(m, show, name, r, result, cs), Show(show, ValueAt(m, r, result, i)));
      ValueCellsSnoc(m, show, name, r, result, cs, MetricColumn(i));
      cs := cs + [MetricColumn(i)];
      if m.includeMax {
        os := PrintCell(os, ValueCells(m, show, name, r, result, cs), Show(show, MaxAt(m, r, result, i)));
        ValueCellsSnoc(m, show, name, r, result, cs, MaxColumn(i));
        cs := cs + [MaxColumn(i)];
      }
    }
    os := PrintCell(os, ValueCells(m, show, name, r, result, cs), Shown(""));
    ValueCellsSnoc(m, show, name, r, result, cs, Separator);
    cs := cs + [Separator];
    ghost var head := cs;
    for i := 0 to |m.infos|
      invariant cs == head + InfoColumns(i) && AllInRange(m, cs)
      invariant os == RowText(ValueCells(m, show, name, r, result, cs))
    {
      os := PrintCell(os, ValueCells(m, show, name, r, result, cs), Show(show, ValueAt(m, r, result, |m.metrics| + i)));
      ValueCellsSnoc(m, show, name, r, result, cs, InfoColumn(i));
      cs := cs + [InfoColumn(i)];
    }
    if m.streaming {
      head := cs;
      os := PrintCell(os, ValueCells(m, show, name, r, result, cs), Shown(""));
      ValueCellsSnoc(m, show, name, r, result, cs, Separator);
      cs := cs + [Separator];
      for i := 0 to |m.ioInfos|
        invariant cs == head + ([Separator] + IoColumns(i)) && AllInRange(m, cs)
        invariant os == RowText(ValueCells(m, show, name, r, result, cs))
      {
        IoSized(m, r);
        os := PrintCell(os, ValueCells(m, show, name, r, result, cs), Show(show, r.ioValues[i]));
        ValueCellsSnoc(m, show, name, r, result, cs, IoColumn(i));
        cs := cs + [IoColumn(i)];
      }
    }
    assert cs == Columns(m);
    os := os + "\n";
  }

  lemma EmptyRow()
    ensures RowText([]) == ""
  {
  }

  lemma IoSized(m: MetricSet, r: Results)
    requires Sized(m, r) && m.streaming
    ensures |r.ioValues| == |m.ioInfos|
  {
  }

  lemma NameCellsSnoc(m: MetricSet, cs: seq<Column>, c: Column)
    requires AllInRange(m, cs) && InRange(m, c)
    ensures AllInRange(m, cs + [c]) && NameCells(m, cs + [c]) == NameCells(m, cs) + [Shown(NameIn(m, c))]
  {
  }

  lemma UnitCellsSnoc(m: MetricSet, cs: seq<Column>, c: Column)
    requires AllInRange(m, cs) && InRange(m, c)
    ensures AllInRange(m, cs + [c]) && UnitCells(m, cs + [c]) == UnitCells(m, cs) + [Shown(UnitIn(m, c))]
  {
  }

  lemma ValueCellsSnoc(m: MetricSet, show: Format, name: string, r: Results, result: nat, cs: seq<Column>, c: Column)
    requires Sized(m, r) && result < r.numResults && AllInRange(m, cs) && InRange(m, c)
    ensures AllInRange(m, cs + [c])
    ensures ValueCells(m, show, name, r, result, cs + [c])
         == ValueCells(m, show, name, r, result, cs) + [CellIn(m, show, name, r, result, c)]
  {
  }
}
