/**
 JSON text (RFC 8259) for the values a trace holds: unsigned decimal numbers, strings and non-empty objects,
 in one top-level array. The reader accepts a subset of the grammar, so what it accepts is well formed.
 */
module Json {
  import opened Text

  datatype Value =
    | Number(whole: nat, fraction: string)
    | String(text: string)
    | Object(fields: Fields)

  datatype Fields = End | Field(key: string, value: Value, rest: Fields)

  // ---- Text ----

  function Key(key: string): string { "\"" + (key + "\":") }

  /** The compact text of `v`, followed by `tail`. */
  function Print(v: Value, tail: string): string
    decreases v
  {
    match v
    case Number(whole, fraction) => Digits(whole) + (if fraction == "" then tail else "." + (fraction + tail))
    case String(text) => "\"" + (text + ("\"" + tail))
    case Object(fields) => "{" + PrintFields(fields, tail)
  }

  function PrintFields(fields: Fields, tail: string): string
    decreases fields
  {
    match fields
    case End => "}" + tail
    case Field(key, value, End) => Key(key) + Print(value, "}" + tail)
    case Field(key, value, rest) => Key(key) + Print(value, "," + PrintFields(rest, tail))
  }

  /** The array file of the tracer: every element ends in a comma and a newline but the last. */
  function PrintElements(objects: seq<Value>, last: Value): string {
    if objects == [] then Print(last, "\n]\n") else Print(objects[0], ",\n" + PrintElements(objects[1..], last))
  }

  /** Characters that stand for themselves inside a JSON string (section 7 of RFC 8259). */
  predicate Plain(c: char) { c != '"' && c != '\\' && ' ' <= c }

  predicate PlainText(s: string) { forall i :: 0 <= i < |s| ==> Plain(s[i]) }

  predicate Clean(v: Value) {
    match v
    case Number(_, fraction) => AllDigits(fraction)
    case String(text) => PlainText(text)
    case Object(fields) => fields.Field? && CleanFields(fields)
  }

  predicate CleanFields(fields: Fields) {
    match fields
    case End => true
    case Field(key, value, rest) => PlainText(key) && Clean(value) && CleanFields(rest)
  }

  // ---- The reader ----

  predicate Space(c: char) { c == ' ' || c == '\t' || c == '\n' || c == '\r' }

  function SkipSpace(s: string): (r: string)
    ensures |r| <= |s|
    ensures r != "" ==> !Space(r[0])
  {
    if s != "" && Space(s[0]) then SkipSpace(s[1..]) else s
  }

  function PlainSpan(s: string): (k: nat)
    ensures k <= |s| && PlainText(s[..k])
    ensures forall i :: 0 <= i < k ==> Plain(s[i])
    ensures k < |s| ==> !Plain(s[k])
  {
    if s == "" || !Plain(s[0]) then 0
    else
      var k := 1 + PlainSpan(s[1..]);
      assert forall i :: 0 < i < k ==> s[i] == s[1..][i - 1];
      k
  }

  /** The string whose opening quote has been read. */
  function ReadString(s: string): (r: Option<(string, string)>)
    ensures r.Some? ==> PlainText(r.value.0) && |r.value.1| < |s|
  {
    var k := PlainSpan(s);
    if k < |s| && s[k] == '"' then Some((s[..k], s[k + 1..])) else None
  }

  function ReadNumber(s: string): (r: Option<(Value, string)>)
    ensures r.Some? ==> Clean(r.value.0) && |r.value.1| < |s|
  {
    var k := DigitSpan(s);
    if k == 0 || (k > 1 && s[0] == '0') then None
    else if k < |s| && s[k] == '.' then
      var t := s[k + 1..];
      var m := DigitSpan(t);
      if m == 0 then None else Some((Number(Text.Value(s[..k]), t[..m]), t[m..]))
    else Some((Number(Text.Value(s[..k]), ""), s[k..]))
  }

  function ReadValue(s: string): (r: Option<(Value, string)>)
    ensures r.Some? ==> Clean(r.value.0) && |r.value.1| < |s|
    decreases |s|, 0
  {
    var t := SkipSpace(s);
    if t == "" then None
    else if t[0] == '"' then
      (match ReadString(t[1..])
       case Some((text, rest)) => Some((String(text), rest))
       case None => None)
    else if t[0] == '{' then
      (match ReadFields(t[1..])
       case Some((fields, rest)) => Some((Object(fields), rest))
       case None => None)
    else ReadNumber(t)
  }

  /** A quoted key and its colon. */
  function ReadKey(s: string): (r: Option<(string, string)>)
    ensures r.Some? ==> PlainText(r.value.0) && |r.value.1| < |s|
  {
    var t := SkipSpace(s);
    if t == "" || t[0] != '"' then None
    else
      match ReadString(t[1..])
      case None => None
      case Some((key, rest)) =>
        var u := SkipSpace(rest);
        if u == "" || u[0] != ':' then None else Some((key, u[1..]))
  }

  function ReadFields(s: string): (r: Option<(Fields, string)>)
    ensures r.Some? ==> r.value.0.Field? && CleanFields(r.value.0) && |r.value.1| < |s|
    decreases |s|, 0
  {
    match ReadKey(s)
    case None => None
    case Some((key, t)) =>
      match ReadValue(t)
      case None => None
      case Some((value, rest)) => ReadMoreFields(key, value, rest)
  }

  function ReadMoreFields(key: string, value: Value, s: string): (r: Option<(Fields, string)>)
    requires PlainText(key) && Clean(value)
    ensures r.Some? ==> r.value.0.Field? && CleanFields(r.value.0) && |r.value.1| < |s|
    decreases |s|, 1
  {
    var t := SkipSpace(s);
    if t == "" then None
    else if t[0] == '}' then Some((Field(key, value, End), t[1..]))
    else if t[0] == ',' then
      (match ReadFields(t[1..])
       case Some((fields, rest)) => Some((Field(key, value, fields), rest))
       case None => None)
    else None
  }

  /** The elements of an array whose opening bracket has been read, up to the end of the text. */
  function ReadElements(s: string): (r: Option<seq<Value>>)
    ensures r.Some? ==> forall i :: 0 <= i < |r.value| ==> Clean(r.value[i])
    decreases |s|, 0
  {
    match ReadValue(s)
    case None => None
    case Some((value, rest)) => ReadMoreElements(value, rest)
  }

  function ReadMoreElements(value: Value, s: string): (r: Option<seq<Value>>)
    requires Clean(value)
    ensures r.Some? ==> forall i :: 0 <= i < |r.value| ==> Clean(r.value[i])
    decreases |s|, 1
  {
    var t := SkipSpace(s);
    if t == "" then None
    else if t[0] == ']' then (if SkipSpace(t[1..]) == "" then Some([value]) else None)
    else if t[0] == ',' then
      (match ReadElements(t[1..])
       case Some(values) => Some([value] + values)
       case None => None)
    else None
  }

  /** A file holding one non-empty array. */
  function ReadArray(s: string): (r: Option<seq<Value>>)
    ensures r.Some? ==> forall i :: 0 <= i < |r.value| ==> Clean(r.value[i])
  {
    var t := SkipSpace(s);
    if t == "" || t[0] != '[' then None else ReadElements(t[1..])
  }

  // ---- The reader undoes the printer ----

  lemma ReadStringOf(text: string, tail: string)
    requires PlainText(text)
    ensures ReadString(text + ("\"" + tail)) == Some((text, tail))
  {
    var s, k := text + ("\"" + tail), PlainSpan(text + ("\"" + tail));
    assert forall i :: 0 <= i < |text| ==> s[i] == text[i];
    assert s[|text|] == '"' && k == |text|;
    assert s[..k] == text && s[k + 1..] == tail;
  }

  /** What may follow a number without being read as part of it. */
  predicate EndsNumber(tail: string) { tail != "" && !IsDigit(tail[0]) && tail[0] != '.' }

  lemma ReadNumberOf(whole: nat, fraction: string, tail: string)
    requires AllDigits(fraction) && EndsNumber(tail)
    ensures ReadNumber(Print(Number(whole, fraction), tail)) == Some((Number(whole, fraction), tail))
  {
    hide Digits, DigitSpan, Text.Value;
    var rest := if fraction == "" then tail else "." + (fraction + tail);
    var s, k := Digits(whole) + rest, |Digits(whole)|;
    assert s[k] == rest[0] && s[0] == Digits(whole)[0];
    WholePart(whole, rest);
    if fraction != "" {
      DigitSpanOf(fraction, tail);
      assert s[k + 1..] == s[k..][1..] == fraction + tail;
    }
  }

  lemma WholePart(whole: nat, rest: string)
    requires !StartsWithDigit(rest)
    ensures var s, k := Digits(whole) + rest, |Digits(whole)|;
            DigitSpan(s) == k && s[..k] == Digits(whole) && s[k..] == rest
            && Text.Value(s[..k]) == whole && (k > 1 ==> s[0] != '0')
  {
    hide DigitSpan, Text.Value;
    DigitsRoundTrip(whole);
    DigitsNoLeadingZero(whole);
    DigitSpanOf(Digits(whole), rest);
  }

  lemma {:induction false} ReadValueOf(v: Value, tail: string)
    requires Clean(v) && EndsNumber(tail)
    ensures ReadValue(Print(v, tail)) == Some((v, tail))
    decreases v
  {
    hide ReadNumber, ReadString, ReadFields, PrintFields, Digits;
    var s := Print(v, tail);
    match v
    case Number(whole, fraction) =>
      ReadNumberOf(whole, fraction, tail);
      assert IsDigit(s[0]);
    case String(text) =>
      ReadStringOf(text, tail);
      assert s[1..] == text + ("\"" + tail);
    case Object(fields) =>
      ReadFieldsOf(fields, tail);
      assert s[1..] == PrintFields(fields, tail);
  }

  lemma {:induction false} ReadFieldsOf(fields: Fields, tail: string)
    requires fields.Field? && CleanFields(fields)
    ensures ReadFields(PrintFields(fields, tail)) == Some((fields, tail))
    decreases fields
  {
    var key, value := fields.key, fields.value;
    var after := if fields.rest.End? then "}" + tail else "," + PrintFields(fields.rest, tail);
    ReadKeyOf(key, Print(value, after));
    ReadValueOf(value, after);
    if fields.rest.Field? {
      ReadFieldsOf(fields.rest, tail);
      CommaThenFields(key, value, fields.rest, tail);
    } else {
      BraceEndsFields(key, value, tail);
    }
  }

  lemma CommaThenFields(key: string, value: Value, rest: Fields, tail: string)
    requires PlainText(key) && Clean(value)
    requires ReadFields(PrintFields(rest, tail)) == Some((rest, tail))
    ensures ReadMoreFields(key, value, "," + PrintFields(rest, tail)) == Some((Field(key, value, rest), tail))
  {
    hide PrintFields, ReadFields;
    var s := "," + PrintFields(rest, tail);
    assert SkipSpace(s) == s && s[1..] == PrintFields(rest, tail);
  }

  lemma BraceEndsFields(key: string, value: Value, tail: string)
    requires PlainText(key) && Clean(value)
    ensures ReadMoreFields(key, value, "}" + tail) == Some((Field(key, value, End), tail))
  {
    assert ("}" + tail)[1..] == tail;
  }

  lemma ReadKeyOf(key: string, tail: string)
    requires PlainText(key)
    ensures ReadKey(Key(key) + tail) == Some((key, tail))
  {
    var s := Key(key) + tail;
    assert s[1..] == key + ("\"" + (":" + tail));
    ReadStringOf(key, ":" + tail);
    assert (":" + tail)[1..] == tail;
  }

  lemma {:induction false} ReadElementsOf(objects: seq<Value>, last: Value)
    requires Clean(last) && forall i :: 0 <= i < |objects| ==> Clean(objects[i])
    ensures ReadElements(PrintElements(objects, last)) == Some(objects + [last])
  {
    hide Print, ReadValue, ReadMoreElements, Clean;
    if objects == [] {
      ReadValueOf(last, "\n]\n");
      BracketEndsElements(last);
      assert objects + [last] == [last];
    } else {
      var more := PrintElements(objects[1..], last);
      ReadValueOf(objects[0], ",\n" + more);
      ReadElementsOf(objects[1..], last);
      CommaThenElements(objects[0], more);
      assert [objects[0]] + (objects[1..] + [last]) == objects + [last];
    }
  }

  lemma BracketEndsElements(value: Value)
    requires Clean(value)
    ensures ReadMoreElements(value, "\n]\n") == Some([value])
  {
    assert "\n]\n"[1..] == "]\n" && "]\n"[1..] == "\n" && "\n"[1..] == "";
    assert SkipSpace("\n]\n") == "]\n" && SkipSpace("\n") == "";
  }

  lemma CommaThenElements(value: Value, more: string)
    requires Clean(value) && ReadElements(more).Some?
    ensures ReadMoreElements(value, ",\n" + more) == Some([value] + ReadElements(more).value)
  {
    assert (",\n" + more)[1..] == "\n" + more;
    SpaceBeforeElements("\n", more);
  }

  lemma SpaceBeforeElements(space: string, s: string)
    requires |space| == 1 && Space(space[0])
    ensures ReadElements(space + s) == ReadElements(s)
  {
    assert (space + s)[1..] == s;
    assert SkipSpace(space + s) == SkipSpace(s);
    if ReadValue(s).Some? {
      assert ReadValue(space + s) == ReadValue(s);
    }
  }

  /** An array file reads back as exactly its elements, precisely when every string in it is plain. */
  lemma ArrayReadsBack(objects: seq<Value>, last: Value)
    requires Clean(last)
    ensures ReadArray("[\n" + PrintElements(objects, last)) == Some(objects + [last])
            <==> forall i :: 0 <= i < |objects| ==> Clean(objects[i])
  {
    hide ReadElements, PrintElements, Clean;
    ReadArrayOf(PrintElements(objects, last));
    if forall i :: 0 <= i < |objects| ==> Clean(objects[i]) {
      ReadElementsOf(objects, last);
    }
    forall i | 0 <= i < |objects| ensures (objects + [last])[i] == objects[i] {
    }
  }

  lemma ReadArrayOf(body: string)
    ensures ReadArray("[\n" + body) == ReadElements(body)
  {
    hide ReadElements;
    var s := "[\n" + body;
    assert s[1..] == "\n" + body;
    SpaceBeforeElements("\n", body);
  }

  /** `tail` is only carried along. */
  lemma {:induction false} PrintAppend(v: Value, tail: string, more: string)
    ensures Print(v, tail + more) == Print(v, tail) + more
    decreases v
  {
    match v
    case Number(whole, fraction) =>
      Regroup(fraction, tail, more);
      Regroup(".", fraction + tail, more);
      Regroup(Digits(whole), if fraction == "" then tail else "." + (fraction + tail), more);
    case String(text) =>
      Regroup("\"", tail, more);
      Regroup(text, "\"" + tail, more);
      Regroup("\"", text + ("\"" + tail), more);
    case Object(fields) =>
      PrintFieldsAppend(fields, tail, more);
      Regroup("{", PrintFields(fields, tail), more);
  }

  lemma {:induction false} PrintFieldsAppend(fields: Fields, tail: string, more: string)
    ensures PrintFields(fields, tail + more) == PrintFields(fields, tail) + more
    decreases fields
  {
    Regroup("}", tail, more);
    if fields.Field? {
      if fields.rest.End? {
        PrintAppend(fields.value, "}" + tail, more);
        Regroup(Key(fields.key), Print(fields.value, "}" + tail), more);
      } else {
        PrintFieldsAppend(fields.rest, tail, more);
        Regroup(",", PrintFields(fields.rest, tail), more);
        PrintAppend(fields.value, "," + PrintFields(fields.rest, tail), more);
        Regroup(Key(fields.key), Print(fields.value, "," + PrintFields(fields.rest, tail)), more);
      }
    }
  }
}
