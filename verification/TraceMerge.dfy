/**
 The script that merges the traces of several processes onto one timeline. It works on text: it keeps lines,
 ends them with a comma, and substitutes the times in them.
 */
module TraceMerge {
  import opened Text
  import opened Trimming

  // ---- Searching ----

  predicate Contains(s: string, part: string) { part <= s || (s != "" && Contains(s[1..], part)) }

  /** What follows the last occurrence of `part`, which does not overlap itself. */
  function AfterLast(part: string, s: string): Option<string> {
    if s == "" then None
    else
      match AfterLast(part, s[1..])
      case Some(r) => Some(r)
      case None => StripPrefix(part, s)
  }

  /** The last of the pieces between occurrences of `part`. */
  function LastPiece(part: string, s: string): string {
    match AfterLast(part, s) case Some(r) => r case None => s
  }

  /** Nothing of `part` is left in what follows its last occurrence, which follows it. */
  lemma {:induction false} AfterLastMeans(part: string, s: string)
    requires part != ""
    ensures match AfterLast(part, s)
            case Some(r) => !Contains(r, part) && |part + r| <= |s| && part + r == s[|s| - |part + r|..]
            case None => !Contains(s, part)
  {
    if s != "" {
      AfterLastMeans(part, s[1..]);
      match AfterLast(part, s[1..])
      case Some(r) => assert s[1..][|s| - 1 - |part + r|..] == s[|s| - |part + r|..];
      case None =>
        if part <= s {
          assert s == part + s[|part|..];
          NotInEnd(s[1..], |part| - 1, part);
          assert s[1..][|part| - 1..] == s[|part|..];
        }
    }
  }

  lemma {:induction false} NotInEnd(s: string, k: nat, part: string)
    requires k <= |s| && !Contains(s, part)
    ensures !Contains(s[k..], part)
  {
    if k == 0 {
      assert s[0..] == s;
    } else {
      NotInEnd(s[1..], k - 1, part);
      assert s[1..][k - 1..] == s[k..];
    }
  }

  /** The first of the pieces between occurrences of `c`. */
  function FirstPiece(c: char, s: string): string {
    if s == "" || s[0] == c then "" else [s[0]] + FirstPiece(c, s[1..])
  }

  lemma {:induction false} FirstPieceMeans(c: char, s: string)
    ensures var p := FirstPiece(c, s); c !in p && p <= s && (|p| < |s| ==> s[|p|] == c)
  {
    if s != "" && s[0] != c {
      FirstPieceMeans(c, s[1..]);
      var p := FirstPiece(c, s[1..]);
      assert FirstPiece(c, s) == [s[0]] + p;
      hide FirstPiece;
      assert s[1..][..|p|] == p && s[..|p| + 1] == [s[0]] + p;
      assert |p| < |s| - 1 ==> s[|p| + 1] == s[1..][|p|];
    }
  }

  /** The lines of a text, each with the newline that ends it. */
  function ReadLines(s: string): seq<string>
    decreases |s|
  {
    var k := LineLength(s);
    if s == "" then [] else [s[..k]] + ReadLines(s[k..])
  }

  function LineLength(s: string): (k: nat)
    ensures k <= |s| && (s != "" ==> k > 0)
  {
    if s == "" then 0 else if s[0] == '\n' then 1 else 1 + LineLength(s[1..])
  }

  lemma {:induction false} LineLengthMeans(s: string)
    ensures var k := LineLength(s);
            (forall i :: 0 <= i < k - 1 ==> s[i] != '\n') && (k < |s| ==> k > 0 && s[k - 1] == '\n')
  {
    if s != "" && s[0] != '\n' {
      LineLengthMeans(s[1..]);
      assert forall i :: 0 < i < LineLength(s) - 1 ==> s[i] == s[1..][i - 1];
    }
  }

  /** The lines are the text, and newlines are only at their ends, which all but the last have. */
  lemma {:induction false} LinesAreText(s: string)
    ensures FlatMap(Id, ReadLines(s)) == s
    ensures forall k :: 0 <= k < |ReadLines(s)| ==> ReadLines(s)[k] != "" && '\n' !in ReadLines(s)[k][..|ReadLines(s)[k]| - 1]
    ensures forall k :: 0 <= k < |ReadLines(s)| - 1 ==> ReadLines(s)[k][|ReadLines(s)[k]| - 1] == '\n'
    decreases |s|
  {
    hide LineLength;
    if s != "" {
      var k := LineLength(s);
      LineLengthMeans(s);
      LinesAreText(s[k..]);
      assert s == s[..k] + s[k..];
      assert ReadLines(s)[1..] == ReadLines(s[k..]);
    }
  }

  // ---- One line ----

  /** Whether a line is kept: events pass when a filter occurs in them, metadata always passes. */
  predicate Keep(filters: seq<string>, line: string) {
    if !Contains(line, "\"ph\":") then false
    else if |filters| == 0 then true
    else if Contains(line, "\"ph\":\"M\"") then true
    else exists i :: 0 <= i < |filters| && Contains(line, filters[i])
  }

  /** What Python strips from the ends of a string. */
  predicate IsSpace(c: char) {
    || c == ' ' || '\t' <= c <= '\r' || '\U{1C}' <= c <= '\U{1F}' || c == '\U{85}' || c == '\U{A0}' || c == '\U{1680}'
    || '\U{2000}' <= c <= '\U{200A}' || c == '\U{2028}' || c == '\U{2029}' || c == '\U{202F}' || c == '\U{205F}'
    || c == '\U{3000}'
  }

  lemma SpacesAre(c: char)
    ensures IsSpace(c) <==> var n := c as int;
                            || 9 <= n <= 13 || 28 <= n <= 32
                            || n in {0x85, 0xA0, 0x1680, 0x2028, 0x2029, 0x202F, 0x205F, 0x3000} || 0x2000 <= n <= 0x200A
  {
  }

  predicate EndsInComma(s: string) { s != "" && s[|s| - 1] == ',' }

  function Fixup(line: string): string {
    if !EndsInComma(Trim(IsSpace, line)) then Trim(IsSpace, line) + ",\n" else line
  }

  /** After fixing, a line ends in a comma: the one it had, or one that was added to a line that had none. */
  lemma FixupEndsInComma(line: string)
    ensures EndsInComma(Trim(IsSpace, Fixup(line)))
    ensures Trim(IsSpace, Fixup(line))
         == if EndsInComma(Trim(IsSpace, line)) then Trim(IsSpace, line) else Trim(IsSpace, line) + ","
    ensures Fixup(Fixup(line)) == Fixup(line)
  {
    var t := Trim(IsSpace, line);
    if !EndsInComma(t) {
      var u := t + ",";
      assert NoOuterBlanks(IsSpace, u) by {
        assert u[|u| - 1] == ',' && (t != "" ==> u[0] == t[0]);
      }
      TrimTrimmed(IsSpace, u);
      assert Blanks(IsSpace, "") && Blanks(IsSpace, "\n");
      assert "" + (u + "\n") == t + ",\n";
      TrimPadded(IsSpace, "", u, "\n");
      assert u[|u| - 1] == ',';
    }
  }

  // ---- Numbers ----

  datatype Decimal = Decimal(whole: nat, fraction: string)

  /** The number a text denotes: digits, and after a point any digits more. */
  function ToDecimal(s: string): (r: Option<Decimal>)
    ensures r.Some? ==> AllDigits(r.value.fraction)
  {
    var k := DigitSpan(s);
    if k == 0 then None
    else if k == |s| then Some(Decimal(Value(s[..k]), ""))
    else if s[k] == '.' && AllDigits(s[k + 1..]) then Some(Decimal(Value(s[..k]), s[k + 1..]))
    else None
  }

  function StripZeros(s: string): (r: string)
    ensures AllDigits(s) ==> AllDigits(r)
    ensures r == "" || r[|r| - 1] != '0'
  {
    if s != "" && s[|s| - 1] == '0' then StripZeros(s[..|s| - 1]) else s
  }

  /** Digits after the point as they are printed: no zeros at the end, but at least one digit. */
  function Normal(fraction: string): (r: string)
    ensures r != "" && (AllDigits(fraction) ==> AllDigits(r))
    ensures r[|r| - 1] != '0' || r == "0"
  {
    if StripZeros(fraction) == "" then "0" else StripZeros(fraction)
  }

  function DecimalText(d: Decimal): string { Digits(d.whole) + ("." + Normal(d.fraction)) }

  function Pow10(n: nat): (r: real)
    ensures r >= 1.0
  {
    if n == 0 then 1.0 else 10.0 * Pow10(n - 1)
  }

  /** The part of a number after the point. */
  function Fraction(s: string): real
    requires AllDigits(s)
  {
    Value(s) as real / Pow10(|s|)
  }

  lemma FractionAppendZero(s: string)
    requires AllDigits(s)
    ensures Fraction(s + "0") == Fraction(s)
  {
    assert (s + "0")[..|s|] == s && DigitValue('0') == 0;
    assert Value(s + "0") == 10 * Value(s);
    Tenfold(Value(s) as real, Pow10(|s|));
  }

  lemma Tenfold(a: real, b: real)
    requires b > 0.0
    ensures (10.0 * a) / (10.0 * b) == a / b
  {
    assert (a / b) * (10.0 * b) == 10.0 * a;
  }

  /** Printing the digits after the point without zeros at the end does not change the number. */
  lemma {:induction false} NormalSame(s: string)
    requires AllDigits(s)
    ensures Fraction(Normal(s)) == Fraction(s)
  {
    StripZerosSame(s);
    assert "" + "0" == "0";
    FractionAppendZero("");
  }

  lemma {:induction false} StripZerosSame(s: string)
    requires AllDigits(s)
    ensures Fraction(StripZeros(s)) == Fraction(s)
  {
    if s != "" && s[|s| - 1] == '0' {
      StripZerosSame(s[..|s| - 1]);
      FractionAppendZero(s[..|s| - 1]);
      assert s[..|s| - 1] + "0" == s;
    }
  }

  // ---- Substituting times ----

  /** The two patterns that are substituted: a key, and then a number. */
  datatype Pattern = TimePattern | StartPattern

  function KeyOf(p: Pattern): string { if p.TimePattern? then "ts" else "start_time" }

  function Lead(p: Pattern): string { "\"" + (KeyOf(p) + "\":") }

  /** Length of the longest run of digits and points. */
  function DecimalSpan(s: string): (k: nat)
    ensures k <= |s|
  {
    if s != "" && (IsDigit(s[0]) || s[0] == '.') then 1 + DecimalSpan(s[1..]) else 0
  }

  /** Length of what the pattern matches after its key: any digits and points, or digits that may be quoted. */
  function Span(p: Pattern, s: string): (k: nat)
    ensures k <= |s|
  {
    match p
    case TimePattern => DecimalSpan(s)
    case StartPattern =>
      var q := if s != "" && s[0] == '"' then 1 else 0;
      var d := DigitSpan(s[q..]);
      if d == 0 then 0 else if q + d < |s| && s[q + d] == '"' then q + d + 1 else q + d
  }

  /** What the pattern for start times matches: any digits, with the quotes around them. */
  lemma StartSpanOf(opening: string, digits: string, closing: string, rest: string)
    requires opening in ["", "\""] && closing in ["", "\""] && AllDigits(digits) && digits != ""
    requires !StartsWithDigit(rest) && (closing == "" ==> rest == "" || rest[0] != '"')
    ensures Span(StartPattern, opening + (digits + (closing + rest))) == |opening| + |digits| + |closing|
  {
    hide DigitSpan, Span;
    var tail := closing + rest;
    assert tail != "" ==> (tail[0] == '"' <==> closing != "") && !IsDigit(tail[0]);
    DigitSpanOf(digits, tail);
    if opening == "" {
      SpanFrom(digits + tail, |digits|);
      assert opening + (digits + tail) == digits + tail;
    } else {
      SpanFromQuote(digits + tail, |digits|);
    }
    assert tail != "" ==> (digits + tail)[|digits|] == tail[0];
  }

  lemma SpanFrom(s: string, d: nat)
    requires s != "" && s[0] != '"' && DigitSpan(s) == d > 0
    ensures Span(StartPattern, s) == if d < |s| && s[d] == '"' then d + 1 else d
  {
    hide DigitSpan;
    assert s[0..] == s;
  }

  lemma SpanFromQuote(s: string, d: nat)
    requires DigitSpan(s) == d > 0
    ensures Span(StartPattern, "\"" + s) == if d < |s| && s[d] == '"' then d + 2 else d + 1
  {
    hide DigitSpan;
    assert ("\"" + s)[1..] == s;
    assert d < |s| ==> ("\"" + s)[1 + d] == s[d];
  }

  /** Every match of the pattern replaced by its key and `number`. */
  function Substitute(p: Pattern, number: string, s: string): string
    decreases |s|
  {
    if s == "" then ""
    else if Lead(p) <= s && Span(p, s[|Lead(p)|..]) > 0 then
      Lead(p) + (number + Substitute(p, number, s[|Lead(p)| + Span(p, s[|Lead(p)|..])..]))
    else [s[0]] + Substitute(p, number, s[1..])
  }

  /** A line with its time counted from the epoch, or None when the time in it is not a number. */
  function Rebase(line: string, offset: nat, epoch: nat): Option<string> {
    if Contains(line, "\"ts\"") then
      match ToDecimal(FirstPiece(',', LastPiece("\"ts\":", line)))
      case Some(ts) => Some(Substitute(TimePattern, DecimalText(Decimal(ts.whole + offset, ts.fraction)), line))
      case None => None
    else if Contains(line, "start_time") then Some(Substitute(StartPattern, Digits(epoch), line))
    else Some(line)
  }

  // ---- One file ----

  function Kept(filters: seq<string>, lines: seq<string>): seq<string> {
    if lines == [] then []
    else
      var last := lines[|lines| - 1];
      Kept(filters, lines[..|lines| - 1]) + (if Keep(filters, last) then [Fixup(last)] else [])
  }

  /** The positions of the kept lines. */
  function KeptAt(filters: seq<string>, lines: seq<string>): seq<nat> {
    if lines == [] then []
    else KeptAt(filters, lines[..|lines| - 1]) + (if Keep(filters, lines[|lines| - 1]) then [|lines| - 1] else [])
  }

  /** The lines that pass are kept once each and in their order, and only their ends are changed. */
  lemma {:induction false} KeptInOrder(filters: seq<string>, lines: seq<string>)
    ensures var at, kept := KeptAt(filters, lines), Kept(filters, lines);
            && |at| == |kept|
            && (forall k :: 0 <= k < |at| ==> at[k] < |lines| && kept[k] == Fixup(lines[at[k]]))
            && (forall k, l :: 0 <= k < l < |at| ==> at[k] < at[l])
  {
    hide Keep, Fixup;
    if lines != [] {
      KeptInOrder(filters, lines[..|lines| - 1]);
    }
  }

  /** And no other lines are. */
  lemma {:induction false} KeptIffPasses(filters: seq<string>, lines: seq<string>, i: nat)
    requires i < |lines|
    ensures i in KeptAt(filters, lines) <==> Keep(filters, lines[i])
  {
    hide Keep;
    var pre := lines[..|lines| - 1];
    if i < |pre| {
      KeptIffPasses(filters, pre, i);
    } else {
      KeptInOrder(filters, pre);
    }
  }

  predicate IsQuote(c: char) { c == '"' }

  /** The start time of a trace: the number at the end of its third line, when some line has a start time. */
  function StartOf(lines: seq<string>): Option<nat> {
    if (exists k :: 0 <= k < |lines| && Contains(lines[k], "start_time")) && |lines| > 2 then
      var number := Trim(IsQuote, FirstPiece('}', LastPiece(":", lines[2])));
      if number != "" && AllDigits(number) then Some(Value(number)) else None
    else None
  }

  function RebaseAll(lines: seq<string>, offset: nat, epoch: nat): Option<seq<string>> {
    if lines == [] then Some([])
    else
      match (RebaseAll(lines[..|lines| - 1], offset, epoch), Rebase(lines[|lines| - 1], offset, epoch))
      case (Some(before), Some(last)) => Some(before + [last])
      case _ => None
  }

  // ---- All files ----

  function StartsOf(files: seq<string>): (r: Option<seq<nat>>)
    ensures r.Some? ==> |r.value| == |files|
  {
    if files == [] then Some([])
    else
      match (StartsOf(files[..|files| - 1]), StartOf(ReadLines(files[|files| - 1])))
      case (Some(before), Some(last)) => Some(before + [last])
      case _ => None
  }

  /** The epoch: the earliest of the start times. */
  function Least(starts: seq<nat>): (epoch: nat)
    requires starts != []
    ensures epoch in starts && forall j :: 0 <= j < |starts| ==> epoch <= starts[j]
  {
    if |starts| == 1 then starts[0]
    else
      var before := Least(starts[..|starts| - 1]);
      if starts[|starts| - 1] < before then starts[|starts| - 1] else before
  }

  /** The kept lines of the first `n` files, counted from the epoch. */
  function MergedLines(files: seq<string>, filters: seq<string>, starts: seq<nat>, n: nat): (r: Option<seq<seq<string>>>)
    requires n <= |files| == |starts| && files != []
    ensures r.Some? ==> |r.value| == n
  {
    if n == 0 then Some([])
    else
      match (MergedLines(files, filters, starts, n - 1),
             RebaseAll(Kept(filters, ReadLines(files[n - 1])), starts[n - 1] - Least(starts), Least(starts)))
      case (Some(before), Some(last)) => Some(before + [last])
      case _ => None
  }

  const MERGED_EOF := "{\"ph\":\"M\",\"name\":\"clintercept_merged_eof\",\"pid\":0,\"tid\":0}\n"

  function Id(line: string): string { line }

  /** What the final loop writes of a file: its lines from the second on. */
  function Written(lines: seq<string>): string {
    if lines == [] then "" else FlatMap(Id, lines[1..])
  }

  function Output(merged: seq<seq<string>>): string {
    "[\n" + (FlatMap(Written, merged) + (MERGED_EOF + "]\n"))
  }

  /** The merged file, or None when the script gives up: too few files, a start time missing, a time that is no number. */
  function Combined(files: seq<string>, filters: seq<string>): Option<string> {
    if |files| < 2 then None
    else
      match StartsOf(files)
      case None => None
      case Some(starts) =>
        match MergedLines(files, filters, starts, |files|)
        case None => None
        case Some(merged) => Some(Output(merged))
  }

  method FilterLines(filters: seq<string>, lines: seq<string>) returns (kept: seq<string>)
    ensures kept == Kept(filters, lines)
  {
    kept := [];
    for k := 0 to |lines|
      invariant kept == Kept(filters, lines[..k])
    {
      assert lines[..k + 1][..k] == lines[..k];
      if Keep(filters, lines[k]) {
        kept := kept + [Fixup(lines[k])];
      }
    }
    assert lines[..|lines|] == lines;
  }

  method ReadStarts(files: seq<string>) returns (r: Option<seq<nat>>)
    ensures r == StartsOf(files)
  {
    hide StartOf, ReadLines;
    var starts := [];
    for j := 0 to |files|
      invariant StartsOf(files[..j]) == Some(starts)
    {
      var start := StartOf(ReadLines(files[j]));
      assert files[..j + 1][..j] == files[..j];
      if start.None? {
        StartMissing(files, j + 1);
        return None;
      }
      starts := starts + [start.value];
    }
    assert files[..|files|] == files;
    r := Some(starts);
  }

  lemma {:induction false} StartMissing(files: seq<string>, n: nat)
    requires n <= |files| && StartsOf(files[..n]) == None
    ensures StartsOf(files) == None
    decreases |files|
  {
    if n < |files| {
      assert files[..|files| - 1][..n] == files[..n];
      StartMissing(files[..|files| - 1], n);
    } else {
      assert files[..n] == files;
    }
  }

  method FindEpoch(starts: seq<nat>) returns (epoch: nat)
    requires starts != []
    ensures epoch == Least(starts)
  {
    epoch := starts[0];
    for j := 1 to |starts|
      invariant epoch == Least(starts[..j])
    {
      assert starts[..j + 1][..j] == starts[..j];
      if starts[j] < epoch {
        epoch := starts[j];
      }
    }
    assert starts[..|starts|] == starts;
  }

  /** Rewrites the times in the lines of one file. */
  method RebaseLines(lines: seq<string>, offset: nat, epoch: nat) returns (r: Option<seq<string>>)
    ensures r == RebaseAll(lines, offset, epoch)
  {
    hide Contains, Substitute, ToDecimal;
    var out := lines;
    for k := 0 to |lines|
      invariant |out| == |lines| && forall i :: k <= i < |lines| ==> out[i] == lines[i]
      invariant RebaseAll(lines[..k], offset, epoch) == Some(out[..k])
    {
      assert lines[..k + 1][..k] == lines[..k] && out[k] == lines[k];
      if Contains(out[k], "\"ts\"") {
        var ts := ToDecimal(FirstPiece(',', LastPiece("\"ts\":", out[k])));
        if ts.None? {
          RebaseFails(lines, k + 1, offset, epoch);
          return None;
        }
        out := out[k := Substitute(TimePattern, DecimalText(Decimal(ts.value.whole + offset, ts.value.fraction)), out[k])];
      } else if Contains(out[k], "start_time") {
        out := out[k := Substitute(StartPattern, Digits(epoch), out[k])];
      }
      assert out[..k + 1] == out[..k] + [out[k]];
    }
    assert lines[..|lines|] == lines && out[..|lines|] == out;
    r := Some(out);
  }

  lemma {:induction false} RebaseFails(lines: seq<string>, n: nat, offset: nat, epoch: nat)
    requires n <= |lines| && RebaseAll(lines[..n], offset, epoch) == None
    ensures RebaseAll(lines, offset, epoch) == None
    decreases |lines|
  {
    hide Rebase;
    if n < |lines| {
      assert lines[..|lines| - 1][..n] == lines[..n];
      RebaseFails(lines[..|lines| - 1], n, offset, epoch);
    } else {
      assert lines[..n] == lines;
    }
  }

  method WriteMerged(merged: seq<seq<string>>) returns (out: string)
    ensures out == Output(merged)
  {
    hide FlatMap;
    out := "[\n";
    WrittenNothing();
    for j := 0 to |merged|
      invariant out == "[\n" + FlatMap(Written, merged[..j])
    {
      ghost var before := out;
      WrittenFrom(merged[j]);
      AppendEmpty(before);
      var k := 1;
      while k < |merged[j]|
        invariant k >= 1 && (k <= |merged[j]| || merged[j] == [])
        invariant merged[j] == [] ==> k == 1 && out == before
        invariant merged[j] != [] ==> out == before + FlatMap(Id, merged[j][1..][..k - 1])
      {
        assert merged[j][1..][..k] == merged[j][1..][..k - 1] + [merged[j][k]];
        FlatMapSnoc(Id, merged[j][1..][..k - 1], merged[j][k]);
        Regroup(before, FlatMap(Id, merged[j][1..][..k - 1]), merged[j][k]);
        out := out + merged[j][k];
        k := k + 1;
      }
      assert merged[j] != [] ==> merged[j][1..][..|merged[j]| - 1] == merged[j][1..];
      assert merged[..j + 1] == merged[..j] + [merged[j]];
      FlatMapSnoc(Written, merged[..j], merged[j]);
      Regroup("[\n", FlatMap(Written, merged[..j]), Written(merged[j]));
    }
    assert merged[..|merged|] == merged;
    Regroup("[\n", FlatMap(Written, merged), MERGED_EOF + "]\n");
    out := out + MERGED_EOF;
    out := out + "]\n";
  }

  lemma WrittenNothing()
    ensures FlatMap(Written, []) == "" && FlatMap(Id, []) == ""
  {
  }

  lemma WrittenFrom(lines: seq<string>)
    ensures Written(lines) == if lines == [] then "" else FlatMap(Id, lines[1..])
  {
  }

  method FilterFiles(filters: seq<string>, files: seq<string>) returns (filtered: seq<seq<string>>)
    ensures |filtered| == |files| && forall j :: 0 <= j < |files| ==> filtered[j] == Kept(filters, ReadLines(files[j]))
  {
    hide Kept, ReadLines;
    filtered := [];
    for j := 0 to |files|
      invariant |filtered| == j && forall i :: 0 <= i < j ==> filtered[i] == Kept(filters, ReadLines(files[i]))
    {
      var kept := FilterLines(filters, ReadLines(files[j]));
      filtered := filtered + [kept];
    }
  }

  method RebaseFiles(files: seq<string>, filters: seq<string>, filtered: seq<seq<string>>, starts: seq<nat>, epoch: nat)
    returns (r: Option<seq<seq<string>>>)
    requires |files| == |filtered| == |starts| && files != [] && epoch == Least(starts)
    requires forall j :: 0 <= j < |files| ==> filtered[j] == Kept(filters, ReadLines(files[j]))
    ensures r == MergedLines(files, filters, starts, |files|)
  {
    hide Kept, ReadLines, RebaseAll, Least;
    var merged := filtered;
    for j := 0 to |files|
      invariant |merged| == |files| && forall i :: j <= i < |files| ==> merged[i] == filtered[i]
      invariant MergedLines(files, filters, starts, j) == Some(merged[..j])
    {
      LeastIsLeast(starts, j);
      var lines := RebaseLines(merged[j], starts[j] - epoch, epoch);
      if lines.None? {
        MergeFails(files, filters, starts, j + 1, |files|);
        return None;
      }
      merged := merged[j := lines.value];
      assert merged[..j + 1] == merged[..j] + [merged[j]];
    }
    assert merged[..|files|] == merged;
    r := Some(merged);
  }

  lemma LeastIsLeast(starts: seq<nat>, j: nat)
    requires j < |starts|
    ensures Least(starts) <= starts[j]
  {
  }

  method Combine(files: seq<string>, filters: seq<string>) returns (r: Option<string>)
    ensures r == Combined(files, filters)
  {
    hide Kept, ReadLines, Output, MergedLines, StartsOf, Least;
    if |files| < 2 {
      return None;
    }
    var starts := ReadStarts(files);
    if starts.None? {
      return None;
    }
    var epoch := FindEpoch(starts.value);
    var filtered := FilterFiles(filters, files);
    var merged := RebaseFiles(files, filters, filtered, starts.value, epoch);
    if merged.None? {
      return None;
    }
    var text := WriteMerged(merged.value);
    r := Some(text);
  }

  lemma {:induction false} MergeFails(files: seq<string>, filters: seq<string>, starts: seq<nat>, n: nat, m: nat)
    requires n <= m <= |files| == |starts| && files != [] && MergedLines(files, filters, starts, n) == None
    ensures MergedLines(files, filters, starts, m) == None
    decreases m
  {
    hide Kept, ReadLines, RebaseAll;
    if n < m {
      MergeFails(files, filters, starts, n, m - 1);
    }
  }

  /** Every file that keeps any line loses exactly one: the first line in it that passes the filter. */
  lemma FirstRecordsNotWritten(filters: seq<string>, lines: seq<string>, offset: nat, epoch: nat)
    requires RebaseAll(Kept(filters, lines), offset, epoch).Some?
    ensures var kept, merged := Kept(filters, lines), RebaseAll(Kept(filters, lines), offset, epoch).value;
            && |merged| == |kept|
            && (kept == [] <==> forall i :: 0 <= i < |lines| ==> !Keep(filters, lines[i]))
            && (kept != [] ==>
                  && FlatMap(Id, merged) == merged[0] + Written(merged)
                  && exists i :: 0 <= i < |lines| && Keep(filters, lines[i])
                                 && (forall k :: 0 <= k < i ==> !Keep(filters, lines[k]))
                                 && Rebase(Fixup(lines[i]), offset, epoch) == Some(merged[0]))
  {
    hide Keep, Fixup, Rebase;
    var kept, at := Kept(filters, lines), KeptAt(filters, lines);
    RebasedEach(kept, offset, epoch);
    KeptInOrder(filters, lines);
    forall i | 0 <= i < |lines| ensures i in at <==> Keep(filters, lines[i]) {
      KeptIffPasses(filters, lines, i);
    }
    if kept != [] {
      assert at[0] in at;
      assert forall i :: 0 <= i < at[0] ==> i !in at;
      assert Keep(filters, lines[at[0]]);
    }
    assert kept == [] ==> forall i :: 0 <= i < |lines| ==> i !in at;
  }

  lemma {:induction false} RebasedEach(lines: seq<string>, offset: nat, epoch: nat)
    ensures RebaseAll(lines, offset, epoch).Some? <==> forall k :: 0 <= k < |lines| ==> Rebase(lines[k], offset, epoch).Some?
    ensures RebaseAll(lines, offset, epoch).Some? ==>
              && |RebaseAll(lines, offset, epoch).value| == |lines|
              && forall k :: 0 <= k < |lines| ==>
                   Rebase(lines[k], offset, epoch) == Some(RebaseAll(lines, offset, epoch).value[k])
  {
    hide Rebase;
    if lines != [] {
      var pre := lines[..|lines| - 1];
      RebasedEach(pre, offset, epoch);
      assert forall k :: 0 <= k < |pre| ==> pre[k] == lines[k];
    }
  }

  // ---- When the script gives up ----

  lemma {:induction false} StartsEach(files: seq<string>)
    ensures StartsOf(files).Some? <==> forall j :: 0 <= j < |files| ==> StartOf(ReadLines(files[j])).Some?
    ensures StartsOf(files).Some? ==> forall j :: 0 <= j < |files| ==> StartOf(ReadLines(files[j])) == Some(StartsOf(files).value[j])
  {
    hide StartOf, ReadLines;
    if files != [] {
      var pre := files[..|files| - 1];
      StartsEach(pre);
      assert forall j :: 0 <= j < |pre| ==> pre[j] == files[j];
    }
  }

  /** A line that is taken to have a time, but has no number where it should be. */
  predicate HasBadTime(line: string) {
    Contains(line, "\"ts\"") && ToDecimal(FirstPiece(',', LastPiece("\"ts\":", line))) == None
  }

  lemma RebaseFailsOn(line: string, offset: nat, epoch: nat)
    ensures Rebase(line, offset, epoch) == None <==> HasBadTime(line)
  {
    hide Contains, ToDecimal, Substitute;
  }

  predicate AnyBadTime(lines: seq<string>) { exists k :: 0 <= k < |lines| && HasBadTime(lines[k]) }

  lemma {:induction false} MergedEach(files: seq<string>, filters: seq<string>, starts: seq<nat>, n: nat)
    requires n <= |files| == |starts| && files != []
    ensures MergedLines(files, filters, starts, n).Some?
            <==> forall j :: 0 <= j < n ==> !AnyBadTime(Kept(filters, ReadLines(files[j])))
  {
    hide Kept, ReadLines, Rebase, HasBadTime, Least;
    if n > 0 {
      MergedEach(files, filters, starts, n - 1);
      var kept := Kept(filters, ReadLines(files[n - 1]));
      LeastIsLeast(starts, n - 1);
      RebasedEach(kept, starts[n - 1] - Least(starts), Least(starts));
      forall k | 0 <= k < |kept|
        ensures Rebase(kept[k], starts[n - 1] - Least(starts), Least(starts)) == None <==> HasBadTime(kept[k])
      {
        RebaseFailsOn(kept[k], starts[n - 1] - Least(starts), Least(starts));
      }
    }
  }

  /** Merging fails for fewer than two files, a file without a start time, or a kept line with a bad time, and only then. */
  lemma CombineFails(files: seq<string>, filters: seq<string>)
    ensures Combined(files, filters) == None
            <==> || |files| < 2
                 || (exists j :: 0 <= j < |files| && StartOf(ReadLines(files[j])) == None)
                 || (exists j :: 0 <= j < |files| && AnyBadTime(Kept(filters, ReadLines(files[j]))))
  {
    hide StartsOf, StartOf, ReadLines, Kept, MergedLines, AnyBadTime, Output;
    StartsEach(files);
    if |files| >= 2 && StartsOf(files).Some? {
      MergedEach(files, filters, StartsOf(files).value, |files|);
    }
  }
}
