/** The metric table as a reader of comma-separated text sees it, and exactly when its columns line up. */
module MetricCsv {
  import opened Text
  import opened Words
  import opened MetricTable

  // ---- Reading a row back ----

  predicate FieldText(s: string) { ',' !in s && '\n' !in s }

  /** Length of the first field of a row, or of the row when nothing ends it. */
  function FieldSpan(s: string, end: char): (k: nat)
    ensures k <= |s| && (forall i :: 0 <= i < k ==> s[i] != end)
    ensures k < |s| ==> s[k] == end
  {
    if s == "" || s[0] == end then 0
    else
      var k := 1 + FieldSpan(s[1..], end);
      assert forall i :: 0 < i < k ==> s[i] == s[1..][i - 1];
      k
  }

  /** The parts of a text in which every part is followed by `end`. */
  function ReadParts(text: string, end: char): (parts: seq<string>)
    ensures forall k :: 0 <= k < |parts| ==> end !in parts[k] && forall c :: c in parts[k] ==> c in text
    decreases |text|
  {
    if text == "" then []
    else
      var k := FieldSpan(text, end);
      if k == |text| then
        assert text == text[..k];
        [text]
      else
        var more := ReadParts(text[k + 1..], end);
        assert forall i :: 0 < i < |more| + 1 ==> ([text[..k]] + more)[i] == more[i - 1];
        [text[..k]] + more
  }

  /** The fields of a row: every one ends in a comma. */
  function ReadFields(row: string): seq<string> { ReadParts(row, ',') }

  lemma ReadPartOf(part: string, rest: string, end: char)
    requires end !in part
    ensures ReadParts((part + [end]) + rest, end) == [part] + ReadParts(rest, end)
  {
    var text := (part + [end]) + rest;
    var k := FieldSpan(text, end);
    assert forall i :: 0 <= i < |part| ==> text[i] == part[i] && part[i] in part;
    assert text[|part|] == end;
    assert text[..k] == part && text[k + 1..] == rest;
  }

  // ---- One row ----

  function Commas(s: string): nat {
    if s == "" then 0 else (if s[0] == ',' then 1 else 0) + Commas(s[1..])
  }

  /** The commas inside the values shown, each of which splits a field in two. */
  function InnerCommas(cells: seq<Cell>): nat {
    if cells == [] then 0 else (if cells[0].Shown? then Commas(cells[0].text) else 0) + InnerCommas(cells[1..])
  }

  function DroppedCount(cells: seq<Cell>): nat {
    if cells == [] then 0 else (if cells[0].Shown? then 0 else 1) + DroppedCount(cells[1..])
  }

  predicate AllShown(cells: seq<Cell>) { forall k :: 0 <= k < |cells| ==> cells[k].Shown? }

  predicate CommaFreeCells(cells: seq<Cell>) { forall k :: 0 <= k < |cells| && cells[k].Shown? ==> ',' !in cells[k].text }

  /** Field for field, what was read is what was shown. */
  predicate SameCells(fields: seq<string>, cells: seq<Cell>) {
    |fields| == |cells| && forall k :: 0 <= k < |cells| ==> cells[k] == Shown(fields[k])
  }

  /** A value with commas in it takes a field more for each. */
  lemma {:induction false} FieldsOfText(text: string, rest: string)
    ensures |ReadFields((text + ",") + rest)| == 1 + Commas(text) + |ReadFields(rest)|
    decreases |text|
  {
    hide ReadParts;
    var k := FieldSpan(text, ',');
    CommasAfter(text, k);
    if k == |text| {
      assert text[..k] == text;
      ReadPartOf(text, rest, ',');
    } else {
      var more := text[k + 1..];
      FieldsOfText(more, rest);
      ReadPartOf(text[..k], (more + ",") + rest, ',');
      assert (text + ",") + rest == (text[..k] + ",") + ((more + ",") + rest);
    }
  }

  lemma {:induction false} CommasAfter(text: string, k: nat)
    requires k == FieldSpan(text, ',')
    ensures Commas(text) == if k == |text| then 0 else 1 + Commas(text[k + 1..])
  {
    if text != "" && text[0] != ',' {
      CommasAfter(text[1..], k - 1);
      assert k < |text| ==> text[k + 1..] == text[1..][k..];
    }
  }

  lemma RowCons(cells: seq<Cell>)
    requires cells != []
    ensures RowText(cells) == CellText(cells[0]) + RowText(cells[1..])
  {
  }

  /** The number of fields: a dropped value is a field missing, a comma in a shown one a field too many. */
  lemma {:induction false} FieldCount(cells: seq<Cell>)
    ensures |ReadFields(RowText(cells))| + DroppedCount(cells) == |cells| + InnerCommas(cells)
  {
    if cells != [] {
      hide ReadFields;
      FieldCount(cells[1..]);
      RowCons(cells);
      if cells[0].Shown? {
        FieldsOfText(cells[0].text, RowText(cells[1..]));
      } else {
        assert "" + RowText(cells[1..]) == RowText(cells[1..]);
      }
    }
  }

  lemma {:induction false} CleanRowReads(cells: seq<Cell>)
    requires AllShown(cells) && CommaFreeCells(cells)
    ensures SameCells(ReadFields(RowText(cells)), cells)
  {
    if cells != [] {
      hide ReadParts;
      var rest := cells[1..];
      assert forall k :: 0 <= k < |rest| ==> rest[k] == cells[k + 1];
      CleanRowReads(rest);
      RowCons(cells);
      ReadPartOf(cells[0].text, RowText(rest), ',');
      assert forall k :: 0 < k < |cells| ==> cells[k] == rest[k - 1];
    }
  }

  /** A row reads back field for field precisely when every value was shown and none holds a comma. */
  lemma RowReadsBack(cells: seq<Cell>)
    ensures SameCells(ReadFields(RowText(cells)), cells) <==> AllShown(cells) && CommaFreeCells(cells)
  {
    hide RowText;
    if AllShown(cells) && CommaFreeCells(cells) {
      CleanRowReads(cells);
    }
  }

  /** The names row and the units row have one field per column, in the same order, if and only if none holds a comma. */
  lemma HeadersLineUp(m: MetricSet)
    requires AllInRange(m, Columns(m))
    ensures var cs := Columns(m);
            var names, units := ReadFields(RowText(NameCells(m, cs))), ReadFields(RowText(UnitCells(m, cs)));
            && (|names| == |cs| && (forall k :: 0 <= k < |cs| ==> names[k] == NameIn(m, cs[k]))
                <==> forall k :: 0 <= k < |cs| ==> ',' !in NameIn(m, cs[k]))
            && (|units| == |cs| && (forall k :: 0 <= k < |cs| ==> units[k] == UnitIn(m, cs[k]))
                <==> forall k :: 0 <= k < |cs| ==> ',' !in UnitIn(m, cs[k]))
  {
    var cs := Columns(m);
    hide Columns, NameIn, UnitIn, RowText, ReadFields;
    RowReadsBack(NameCells(m, cs));
    RowReadsBack(UnitCells(m, cs));
    assert forall k :: 0 <= k < |cs| ==> NameCells(m, cs)[k] == Shown(NameIn(m, cs[k]));
    assert forall k :: 0 <= k < |cs| ==> UnitCells(m, cs)[k] == Shown(UnitIn(m, cs[k]));
  }

  /**
   Field `k` of a value row is the value of the column that field `k` of the header names, for every column,
   precisely when every value has a printable type and none, the kernel's name included, prints with a comma.
   In general the row is short by a field for every value of another type, and long by one for every comma.
   */
  lemma ValuesLineUp(m: MetricSet, show: Format, name: string, r: Results, result: nat)
    requires Sized(m, r) && result < r.numResults && AllInRange(m, Columns(m))
    ensures var cs := Columns(m);
            var cells := ValueCells(m, show, name, r, result, cs);
            var fields := ReadFields(RowText(cells));
            && (|fields| == |cs| && (forall k :: 0 <= k < |cs| ==> CellIn(m, show, name, r, result, cs[k]) == Shown(fields[k]))
                <==> AllShown(cells) && CommaFreeCells(cells))
            && |fields| + DroppedCount(cells) == |cs| + InnerCommas(cells)
  {
    var cs := Columns(m);
    hide Columns, CellIn, RowText, ReadFields;
    RowReadsBack(ValueCells(m, show, name, r, result, cs));
    FieldCount(ValueCells(m, show, name, r, result, cs));
  }

  /** One metric and one result. */
  ghost function OneValue(v: TypedValue): (MetricSet, Results) {
    (MetricSet([Metric("GpuTime", None)], [], [], false, false), Results(1, [v], [], []))
  }

  lemma OneValueCells(show: Format, name: string, v: TypedValue)
    ensures var (m, r) := OneValue(v);
            AllInRange(m, Columns(m)) && ValueCells(m, show, name, r, 0, Columns(m)) == [Shown(name), Show(show, v), Shown("")]
  {
    var (m, r) := OneValue(v);
    ColumnsInRange(m);
    assert MetricColumns(1, false) == [] + [MetricColumn(0)] + [];
    assert Columns(m) == [Kernel, MetricColumn(0), Separator];
    assert ValueAt(m, r, 0, 0) == v;
  }

  /** A value of a type the printer does not know makes a row with a field missing. */
  lemma UnknownTypeShiftsRow(show: Format)
    ensures var (m, r) := OneValue(Other);
            AllInRange(m, Columns(m)) && |ReadFields(RowText(ValueCells(m, show, "k", r, 0, Columns(m))))| < |Columns(m)|
  {
    var (m, r) := OneValue(Other);
    OneValueCells(show, "k", Other);
    hide Columns;
    ValuesLineUp(m, show, "k", r, 0);
    assert DroppedCount([Dropped, Shown("")]) == 1;
    assert InnerCommas([Dropped, Shown("")]) == 0;
    assert [Shown("k"), Dropped, Shown("")][1..] == [Dropped, Shown("")];
  }

  /** A kernel's name with its global work offset in two dimensions makes a row with a field too many. */
  lemma CommaInNameShiftsRow(show: Format)
    ensures var (m, r) := OneValue(UInt64(7));
            && AllInRange(m, Columns(m)) && AllShown(ValueCells(m, show, "k GWO[ 1, 2 ]", r, 0, Columns(m)))
            && |ReadFields(RowText(ValueCells(m, show, "k GWO[ 1, 2 ]", r, 0, Columns(m))))| == |Columns(m)| + 1
  {
    var (m, r) := OneValue(UInt64(7));
    OneValueCells(show, "k GWO[ 1, 2 ]", UInt64(7));
    OneCommaIn("k GWO[ 1", " 2 ]");
    assert "k GWO[ 1" + ("," + " 2 ]") == "k GWO[ 1, 2 ]";
    assert Digits(7) == "7";
    OneCommaInRow("k GWO[ 1, 2 ]", "7");
    hide Columns, Commas;
    ValuesLineUp(m, show, "k GWO[ 1, 2 ]", r, 0);
  }

  lemma OneCommaIn(before: string, after: string)
    requires ',' !in before && ',' !in after
    ensures Commas(before + ("," + after)) == 1
  {
    NoCommas(after);
    assert ("," + after)[1..] == after;
    CommasAppend(before, "," + after);
    NoCommas(before);
  }

  lemma {:induction false} NoCommas(s: string)
    requires ',' !in s
    ensures Commas(s) == 0
  {
    if s != "" {
      assert forall c :: c in s[1..] ==> c in s;
      NoCommas(s[1..]);
    }
  }

  lemma {:induction false} CommasAppend(a: string, b: string)
    ensures Commas(a + b) == Commas(a) + Commas(b)
  {
    if a == "" {
      assert a + b == b;
    } else {
      assert (a + b)[1..] == a[1..] + b;
      CommasAppend(a[1..], b);
    }
  }

  lemma OneCommaInRow(name: string, value: string)
    requires Commas(name) == 1 && ',' !in value
    ensures var cells := [Shown(name), Shown(value), Shown("")];
            DroppedCount(cells) == 0 && InnerCommas(cells) == 1 && AllShown(cells)
  {
    NoCommas(value);
    NoCommas("");
    hide Commas;
    var last, two := [Shown("")], [Shown(value), Shown("")];
    assert DroppedCount(last) == 0 && InnerCommas(last) == 0;
    assert two[1..] == last && DroppedCount(two) == 0 && InnerCommas(two) == 0;
    assert [Shown(name), Shown(value), Shown("")][1..] == two;
  }

  // ---- The whole table ----

  /** Every value row, as cells. */
  function ValueTable(m: MetricSet, show: Format, name: string, r: Results, count: nat): seq<seq<Cell>>
    requires Sized(m, r) && count <= r.numResults && AllInRange(m, Columns(m))
  {
    seq(count, result requires 0 <= result < count => ValueCells(m, show, name, r, result, Columns(m)))
  }

  function LineText(cells: seq<Cell>): string { RowText(cells) + "\n" }

  /** The rows of a table, and the fields of each. */
  function ReadTable(text: string): seq<seq<string>> {
    var lines := ReadParts(text, '\n');
    seq(|lines|, k requires 0 <= k < |lines| => ReadFields(lines[k]))
  }

  predicate SameTable(read: seq<seq<string>>, rows: seq<seq<Cell>>) {
    |read| == |rows| && forall i :: 0 <= i < |rows| ==> SameCells(read[i], rows[i])
  }

  predicate PrintableRow(cells: seq<Cell>) { forall k :: 0 <= k < |cells| ==> cells[k].Shown? && FieldText(cells[k].text) }

  lemma {:induction false} RowOnOneLine(cells: seq<Cell>)
    requires PrintableRow(cells)
    ensures '\n' !in RowText(cells)
  {
    if cells != [] {
      assert forall k :: 0 <= k < |cells| - 1 ==> cells[1..][k] == cells[k + 1];
      RowOnOneLine(cells[1..]);
      RowCons(cells);
    }
  }

  lemma {:induction false} CleanTableReads(rows: seq<seq<Cell>>)
    requires forall i :: 0 <= i < |rows| ==> PrintableRow(rows[i])
    ensures SameTable(ReadTable(FlatMap(LineText, rows)), rows)
  {
    if rows != [] {
      var rest := rows[1..];
      assert forall i :: 0 <= i < |rest| ==> rest[i] == rows[i + 1];
      hide PrintableRow, ReadTable;
      CleanTableReads(rest);
      FirstRowReads(rows[0], FlatMap(LineText, rest));
      SameTableCons(rows[0], ReadTable(FlatMap(LineText, rest)), rest);
      assert [rows[0]] + rest == rows;
    }
  }

  lemma FirstRowReads(row: seq<Cell>, rest: string)
    requires PrintableRow(row)
    ensures ReadTable(LineText(row) + rest) == [ReadFields(RowText(row))] + ReadTable(rest)
    ensures SameCells(ReadFields(RowText(row)), row)
  {
    RowOnOneLine(row);
    PrintableRowReads(row);
    hide PrintableRow, SameCells, RowText, ReadParts;
    ReadPartOf(RowText(row), rest, '\n');
  }

  lemma SameTableCons(row: seq<Cell>, read: seq<seq<string>>, rows: seq<seq<Cell>>)
    requires SameTable(read, rows) && SameCells(ReadFields(RowText(row)), row)
    ensures SameTable([ReadFields(RowText(row))] + read, [row] + rows)
  {
    hide SameCells, ReadFields, RowText;
    assert forall i :: 0 < i < |rows| + 1 ==> ([row] + rows)[i] == rows[i - 1];
  }

  lemma PrintableRowReads(cells: seq<Cell>)
    requires PrintableRow(cells)
    ensures SameCells(ReadFields(RowText(cells)), cells)
  {
    RowReadsBack(cells);
  }

  /** A table reads back row by row and field by field precisely when every value was shown, without comma or newline. */
  lemma TableReadsBack(rows: seq<seq<Cell>>)
    ensures SameTable(ReadTable(FlatMap(LineText, rows)), rows) <==> forall i :: 0 <= i < |rows| ==> PrintableRow(rows[i])
  {
    if forall i :: 0 <= i < |rows| ==> PrintableRow(rows[i]) {
      CleanTableReads(rows);
    }
    if SameTable(ReadTable(FlatMap(LineText, rows)), rows) {
      hide FlatMap;
      forall i | 0 <= i < |rows| ensures PrintableRow(rows[i]) {
        var line := ReadParts(FlatMap(LineText, rows), '\n')[i];
        assert SameCells(ReadFields(line), rows[i]);
        forall k | 0 <= k < |rows[i]| ensures rows[i][k].Shown? && FieldText(rows[i][k].text) {
          assert forall c :: c in ReadFields(line)[k] ==> c in line;
        }
      }
    }
  }

  lemma {:induction false} ValueRowsAreTable(m: MetricSet, show: Format, name: string, r: Results, count: nat)
    requires Sized(m, r) && count <= r.numResults && AllInRange(m, Columns(m))
    ensures ValueRows(m, show, name, r, count) == FlatMap(LineText, ValueTable(m, show, name, r, count))
  {
    hide ValueCells, RowText, Columns;
    if count > 0 {
      ValueRowsAreTable(m, show, name, r, count - 1);
      var row := ValueCells(m, show, name, r, count - 1, Columns(m));
      FlatMapSnoc(LineText, ValueTable(m, show, name, r, count - 1), row);
      assert ValueTable(m, show, name, r, count) == ValueTable(m, show, name, r, count - 1) + [row];
    }
  }

  /**
   The whole dump, both header rows and the value rows: read as CSV it is the table of the names, the units and
   the values in the metric set's columns, if and only if every name, unit and value shows without comma or newline.
   */
  lemma DumpReadsBack(m: MetricSet, show: Format, name: string, r: Results)
    requires Sized(m, r) && AllInRange(m, Columns(m))
    ensures var cs := Columns(m);
            var rows := [NameCells(m, cs), UnitCells(m, cs)] + ValueTable(m, show, name, r, r.numResults);
            var dump := (RowText(NameCells(m, cs)) + "\n") + ((RowText(UnitCells(m, cs)) + "\n")
                                                              + ValueRows(m, show, name, r, r.numResults));
            SameTable(ReadTable(dump), rows) <==> forall i :: 0 <= i < |rows| ==> PrintableRow(rows[i])
  {
    hide Columns, NameCells, UnitCells, ValueTable, ReadTable, RowText, PrintableRow, SameTable;
    var names, units := NameCells(m, Columns(m)), UnitCells(m, Columns(m));
    var values := ValueTable(m, show, name, r, r.numResults);
    ValueRowsAreTable(m, show, name, r, r.numResults);
    TableReadsBack([names, units] + values);
    assert ([names, units] + values)[1..] == [units] + values && ([units] + values)[1..] == values;
  }

  // ---- What the fields say ----

  /** The text of a field stands for a value: decimal digits, a word, or what the library shows for a float. */
  ghost predicate Denotes(field: string, v: TypedValue, show: Format) {
    match v
    case UInt64(n) => field != "" && AllDigits(field) && Value(field) == n
    case UInt32(w) => field != "" && AllDigits(field) && Value(field) == w
    case Bool(b) => field == if b then "TRUE" else "FALSE"
    case Float(f) => field == show(f)
    case Other => false
  }

  /** What is shown for a value stands for it, and only a value of another type is not shown. */
  lemma ShownDenotes(show: Format, v: TypedValue)
    ensures match Show(show, v)
            case Shown(text) => Denotes(text, v, show)
            case Dropped => v.Other?
  {
    match v
    case UInt64(n) => DigitsRoundTrip(n);
    case UInt32(w) => DigitsRoundTrip(w);
    case _ =>
  }

  /** Different values of one type other than floats show differently. */
  lemma ShownDiffers(show: Format, v: TypedValue, w: TypedValue)
    requires (v.UInt64? && w.UInt64?) || (v.UInt32? && w.UInt32?) || (v.Bool? && w.Bool?)
    ensures Show(show, v) == Show(show, w) <==> v == w
  {
    ShownDenotes(show, v);
    ShownDenotes(show, w);
    assert "TRUE"[0] != "FALSE"[0];
  }

  /** The fields of a row: the value row of `result` when all its values are printable. */
  function RowFields(m: MetricSet, show: Format, name: string, r: Results, result: nat): seq<string>
    requires Sized(m, r) && result < r.numResults && AllInRange(m, Columns(m))
  {
    ReadFields(RowText(ValueCells(m, show, name, r, result, Columns(m))))
  }

  ghost predicate Readable(m: MetricSet, show: Format, name: string, r: Results, result: nat)
    requires Sized(m, r) && result < r.numResults && AllInRange(m, Columns(m))
  {
    var cells := ValueCells(m, show, name, r, result, Columns(m));
    AllShown(cells) && CommaFreeCells(cells)
  }

  lemma FieldAt(m: MetricSet, show: Format, name: string, r: Results, result: nat, k: nat, c: Column)
    requires Sized(m, r) && result < r.numResults && AllInRange(m, Columns(m)) && Readable(m, show, name, r, result)
    requires InRange(m, c) && !c.Separator? && k == PositionOf(m, c)
    ensures k < |RowFields(m, show, name, r, result)|
    ensures Shown(RowFields(m, show, name, r, result)[k]) == CellIn(m, show, name, r, result, c)
  {
    PositionInRow(m, c);
    ColumnAt(m, k, c);
    hide Columns, CellIn, PositionOf, InRange, ReadFields, RowText;
    ValuesLineUp(m, show, name, r, result);
  }

  /** The first field of a row is the kernel's name. */
  lemma NameField(m: MetricSet, show: Format, name: string, r: Results, result: nat)
    requires Sized(m, r) && result < r.numResults && AllInRange(m, Columns(m)) && Readable(m, show, name, r, result)
    ensures RowFields(m, show, name, r, result) != [] && RowFields(m, show, name, r, result)[0] == name
  {
    hide RowFields, Readable, AllInRange, Columns;
    FieldAt(m, show, name, r, result, 0, Kernel);
  }

  /** Metric `i` of a result, in its field and in the array. */
  lemma MetricField(m: MetricSet, show: Format, name: string, r: Results, result: nat, i: nat)
    requires Sized(m, r) && result < r.numResults && AllInRange(m, Columns(m)) && Readable(m, show, name, r, result)
    requires i < |m.metrics|
    ensures var fields := RowFields(m, show, name, r, result);
            var k, index := 1 + (if m.includeMax then 2 * i else i), (|m.metrics| + |m.infos|) * result + i;
            k < |fields| && index < |r.values| && Denotes(fields[k], r.values[index], show)
  {
    hide RowFields, Readable, AllInRange, Columns, Show;
    FlatIndex(|m.metrics| + |m.infos|, r.numResults, result, i);
    FieldAt(m, show, name, r, result, 1 + (if m.includeMax then 2 * i else i), MetricColumn(i));
    ShownDenotes(show, ValueAt(m, r, result, i));
  }

  /** Its maximum value, in the field after it. */
  lemma MaxField(m: MetricSet, show: Format, name: string, r: Results, result: nat, i: nat)
    requires Sized(m, r) && result < r.numResults && AllInRange(m, Columns(m)) && Readable(m, show, name, r, result)
    requires i < |m.metrics| && m.includeMax
    ensures var fields := RowFields(m, show, name, r, result);
            var k, index := 2 + 2 * i, |m.metrics| * result + i;
            k < |fields| && index < |r.maxValues| && Denotes(fields[k], r.maxValues[index], show)
  {
    hide RowFields, Readable, AllInRange, Columns, Show;
    FlatIndex(|m.metrics|, r.numResults, result, i);
    FieldAt(m, show, name, r, result, 2 + 2 * i, MaxColumn(i));
    ShownDenotes(show, MaxAt(m, r, result, i));
  }

  /** Information value `i` of a result, after the metrics and an empty field. */
  lemma InfoField(m: MetricSet, show: Format, name: string, r: Results, result: nat, i: nat)
    requires Sized(m, r) && result < r.numResults && AllInRange(m, Columns(m)) && Readable(m, show, name, r, result)
    requires i < |m.infos|
    ensures var fields, n := RowFields(m, show, name, r, result), if m.includeMax then 2 * |m.metrics| else |m.metrics|;
            var k, index := 2 + n + i, (|m.metrics| + |m.infos|) * result + |m.metrics| + i;
            k < |fields| && index < |r.values| && Denotes(fields[k], r.values[index], show)
  {
    hide RowFields, Readable, AllInRange, Columns, Show;
    FlatIndex(|m.metrics| + |m.infos|, r.numResults, result, |m.metrics| + i);
    FieldAt(m, show, name, r, result, 2 + (if m.includeMax then 2 * |m.metrics| else |m.metrics|) + i, InfoColumn(i));
    ShownDenotes(show, ValueAt(m, r, result, |m.metrics| + i));
  }

  /** Information value `i` of the stream, after another empty field. */
  lemma IoField(m: MetricSet, show: Format, name: string, r: Results, result: nat, i: nat)
    requires Sized(m, r) && result < r.numResults && AllInRange(m, Columns(m)) && Readable(m, show, name, r, result)
    requires m.streaming && i < |m.ioInfos|
    ensures var fields, n := RowFields(m, show, name, r, result), if m.includeMax then 2 * |m.metrics| else |m.metrics|;
            var k := 3 + n + |m.infos| + i;
            k < |fields| && i < |r.ioValues| && Denotes(fields[k], r.ioValues[i], show)
  {
    hide RowFields, Readable, AllInRange, Columns, Show;
    FieldAt(m, show, name, r, result,
            3 + (if m.includeMax then 2 * |m.metrics| else |m.metrics|) + |m.infos| + i, IoColumn(i));
    ShownDenotes(show, r.ioValues[i]);
  }

  /** What the header rows have in the field of each value, and how many fields there are. */
  lemma HeadersSay(m: MetricSet)
    requires AllInRange(m, Columns(m))
    ensures var n, names, units := if m.includeMax then 2 * |m.metrics| else |m.metrics|,
                                   NameCells(m, Columns(m)), UnitCells(m, Columns(m));
            && |names| == |units| == 2 + n + |m.infos| + (if m.streaming then 1 + |m.ioInfos| else 0)
            && names[0] == Shown("kernel") && units[0] == Shown(" ")
            && names[1 + n] == units[1 + n] == Shown("")
            && (m.streaming ==> names[2 + n + |m.infos|] == units[2 + n + |m.infos|] == Shown(""))
  {
    ColumnsCount(m);
    ColumnsAt(m, 0);
    ColumnsAt(m, 1 + Spread(m.includeMax, |m.metrics|));
    if m.streaming {
      ColumnsAt(m, 2 + Spread(m.includeMax, |m.metrics|) + |m.infos|);
    }
    hide Columns;
  }

  ghost predicate UnitsSay(metric: Metric, cell: Cell) {
    cell == Shown(match metric.units case Some(units) => units case None => " ")
  }

  lemma MetricHeader(m: MetricSet, i: nat)
    requires AllInRange(m, Columns(m)) && i < |m.metrics|
    ensures var k, names, units := 1 + (if m.includeMax then 2 * i else i), NameCells(m, Columns(m)), UnitCells(m, Columns(m));
            && k < |names| && names[k] == Shown(m.metrics[i].symbol) && UnitsSay(m.metrics[i], units[k])
            && (m.includeMax ==> k + 1 < |names| && names[k + 1] == Shown("max_" + m.metrics[i].symbol) && units[k + 1] == Shown(" "))
  {
    PositionInRow(m, MetricColumn(i));
    ColumnAt(m, 1 + (if m.includeMax then 2 * i else i), MetricColumn(i));
    if m.includeMax {
      PositionInRow(m, MaxColumn(i));
      ColumnAt(m, 2 + 2 * i, MaxColumn(i));
    }
    hide Columns;
  }

  lemma InfoHeader(m: MetricSet, i: nat)
    requires AllInRange(m, Columns(m)) && i < |m.infos|
    ensures var n, names, units := if m.includeMax then 2 * |m.metrics| else |m.metrics|,
                                   NameCells(m, Columns(m)), UnitCells(m, Columns(m));
            2 + n + i < |names| && names[2 + n + i] == Shown(m.infos[i].symbol) && UnitsSay(m.infos[i], units[2 + n + i])
  {
    PositionInRow(m, InfoColumn(i));
    ColumnAt(m, 2 + Spread(m.includeMax, |m.metrics|) + i, InfoColumn(i));
    hide Columns;
  }

  lemma IoHeader(m: MetricSet, i: nat)
    requires AllInRange(m, Columns(m)) && m.streaming && i < |m.ioInfos|
    ensures var n, names, units := if m.includeMax then 2 * |m.metrics| else |m.metrics|,
                                   NameCells(m, Columns(m)), UnitCells(m, Columns(m));
            var k := 3 + n + |m.infos| + i;
            k < |names| && names[k] == Shown(m.ioInfos[i].symbol) && UnitsSay(m.ioInfos[i], units[k])
  {
    PositionInRow(m, IoColumn(i));
    ColumnAt(m, 3 + Spread(m.includeMax, |m.metrics|) + |m.infos| + i, IoColumn(i));
    hide Columns;
  }
}
