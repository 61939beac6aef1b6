/**
 What the merging script's searches and substitutions do to the printed text of an object: they find and replace
 the values of keys, and nothing inside strings.
 */
module TraceMergeText {
  import opened Text
  import opened Json
  import opened TraceMerge

  /** What may follow a value: the next field, the end of the object, or the end of the line. */
  predicate EndsValue(tail: string) { tail != "" && (tail[0] == ',' || tail[0] == '}') }

  /** What follows a field's value. */
  function After(rest: Fields, tail: string): (s: string)
    ensures EndsValue(s)
  {
    if rest.End? then "}" + tail else "," + PrintFields(rest, tail)
  }

  lemma PrintField(key: string, value: Value, rest: Fields, tail: string)
    ensures PrintFields(Field(key, value, rest), tail) == Key(key) + Print(value, After(rest, tail))
  {
  }

  function NumberText(n: Value): string
    requires n.Number?
  {
    Digits(n.whole) + (if n.fraction == "" then "" else "." + n.fraction)
  }

  lemma PrintNumber(n: Value, tail: string)
    requires n.Number?
    ensures Print(n, tail) == NumberText(n) + tail
  {
    if n.fraction == "" {
      assert Digits(n.whole) + "" == Digits(n.whole);
    } else {
      Regroup(".", n.fraction, tail);
      Regroup(Digits(n.whole), "." + n.fraction, tail);
    }
  }

  lemma NumberHasNoQuote(n: Value)
    requires n.Number? && Clean(n)
    ensures '"' !in NumberText(n) && '\n' !in NumberText(n) && ',' !in NumberText(n)
  {
    hide Digits;
    assert forall c :: c in Digits(n.whole) ==> IsDigit(c);
    assert forall c :: c in n.fraction ==> IsDigit(c);
  }

  // ---- Which keys and strings an object has ----

  predicate HasKey(key: string, v: Value) { v.Object? && FieldsHaveKey(key, v.fields) }

  predicate FieldsHaveKey(key: string, fields: Fields) {
    fields.Field? && (fields.key == key || HasKey(key, fields.value) || FieldsHaveKey(key, fields.rest))
  }

  predicate HasString(text: string, v: Value) {
    match v
    case Number(_, _) => false
    case String(s) => s == text
    case Object(fields) => FieldsHaveString(text, fields)
  }

  predicate FieldsHaveString(text: string, fields: Fields) {
    fields.Field? && (HasString(text, fields.value) || FieldsHaveString(text, fields.rest))
  }

  // ---- Searching ----

  /** What is searched for: a quoted text, with or without a colon. */
  function Quoted(text: string, colon: bool): string { "\"" + (text + (if colon then "\":" else "\"")) }

  lemma {:induction false} NotFoundIn(a: string, b: string, part: string)
    requires part != "" && part[0] !in a
    ensures Contains(a + b, part) <==> Contains(b, part)
  {
    if a == "" {
      assert a + b == b;
    } else {
      assert forall c :: c in a[1..] ==> c in a;
      NotFoundIn(a[1..], b, part);
      assert (a + b)[1..] == a[1..] + b && (a + b)[0] == a[0] && a[0] in a;
    }
  }

  lemma {:induction false} FoundInside(a: string, part: string, b: string)
    ensures Contains(a + (part + b), part)
  {
    if a == "" {
      assert a + (part + b) == part + b && part <= part + b;
    } else {
      FoundInside(a[1..], part, b);
      assert (a + (part + b))[1..] == a[1..] + (part + b);
    }
  }

  /** A quoted text at the start of another: they are the same. */
  lemma SameQuoted(text: string, colon: bool, s: string, rest: string)
    requires PlainText(text) && PlainText(s)
    ensures Quoted(text, colon) <= "\"" + (s + ("\"" + rest)) <==> text == s && (colon ==> rest != "" && rest[0] == ':')
  {
    var all := "\"" + (s + ("\"" + rest));
    var part := Quoted(text, colon);
    if part <= all {
      var more := all[|part|..];
      var ending := if colon then ":" + more else more;
      assert all == part + more;
      assert all[1..] == text + ("\"" + ending);
      assert all[1..] == s + ("\"" + rest);
      ReadStringOf(text, ending);
      ReadStringOf(s, rest);
    }
    if text == s && (colon ==> rest != "" && rest[0] == ':') {
      assert all[..|part|] == part;
    }
  }

  /** Searching across one quoted string. */
  lemma FoundInQuoted(text: string, colon: bool, s: string, rest: string)
    requires PlainText(text) && PlainText(s) && text != "" && rest != "" && rest[0] != text[0]
    ensures Contains("\"" + (s + ("\"" + rest)), Quoted(text, colon))
            <==> (text == s && (colon ==> rest[0] == ':')) || Contains(rest, Quoted(text, colon))
  {
    var part := Quoted(text, colon);
    SameQuoted(text, colon, s, rest);
    var all := "\"" + (s + ("\"" + rest));
    assert all[1..] == s + ("\"" + rest);
    PlainHasNoQuote(s);
    NotFoundIn(s, "\"" + rest, part);
    assert ("\"" + rest)[1..] == rest && ("\"" + rest)[1] == rest[0] && part[1] == text[0];
  }

  lemma PlainHasNoQuote(s: string)
    requires PlainText(s)
    ensures '"' !in s && '\n' !in s
  {
  }

  predicate Searchable(text: string) { PlainText(text) && text != "" && text[0] !in ",}:" }

  /** A quoted text occurs exactly where a key, or with no colon a key or a string, is that text. */
  lemma {:induction false} FoundInText(text: string, colon: bool, v: Value, tail: string)
    requires Searchable(text) && Clean(v) && EndsValue(tail)
    ensures Contains(Print(v, tail), Quoted(text, colon))
            <==> HasKey(text, v) || (!colon && HasString(text, v)) || Contains(tail, Quoted(text, colon))
    decreases v
  {
    hide PrintFields, Contains, NumberText;
    match v
    case Number(_, _) =>
      PrintNumber(v, tail);
      NumberHasNoQuote(v);
      NotFoundIn(NumberText(v), tail, Quoted(text, colon));
    case String(s) =>
      FoundInQuoted(text, colon, s, tail);
    case Object(fields) =>
      FoundInFields(text, colon, fields, tail);
      NotFoundIn("{", PrintFields(fields, tail), Quoted(text, colon));
  }

  lemma {:induction false} FoundInFields(text: string, colon: bool, fields: Fields, tail: string)
    requires Searchable(text) && fields.Field? && CleanFields(fields)
    ensures Contains(PrintFields(fields, tail), Quoted(text, colon))
            <==> FieldsHaveKey(text, fields) || (!colon && FieldsHaveString(text, fields)) || Contains(tail, Quoted(text, colon))
    decreases fields
  {
    hide PrintFields, Print, Contains, Quoted;
    var part, after := Quoted(text, colon), After(fields.rest, tail);
    PrintField(fields.key, fields.value, fields.rest, tail);
    FoundInKey(text, colon, fields.key, Print(fields.value, after));
    FoundInText(text, colon, fields.value, after);
    QuotedFirst(text, colon);
    if fields.rest.End? {
      NotFoundIn("}", tail, part);
    } else {
      NotFoundIn(",", PrintFields(fields.rest, tail), part);
      FoundInFields(text, colon, fields.rest, tail);
    }
  }

  lemma QuotedFirst(text: string, colon: bool)
    ensures Quoted(text, colon) != "" && Quoted(text, colon)[0] == '"'
  {
  }

  lemma FoundInKey(text: string, colon: bool, key: string, s: string)
    requires Searchable(text) && PlainText(key)
    ensures Contains(Key(key) + s, Quoted(text, colon)) <==> key == text || Contains(s, Quoted(text, colon))
  {
    hide Contains;
    assert Key(key) + s == "\"" + (key + ("\"" + (":" + s)));
    FoundInQuoted(text, colon, key, ":" + s);
    NotFoundIn(":", s, Quoted(text, colon));
  }

  // ---- Substituting ----

  function SetIn(key: string, n: Value, v: Value): (w: Value)
    ensures v.Object? ==> w.Object? && (v.fields.Field? ==> w.fields.Field?)
    ensures Clean(n) && Clean(v) ==> Clean(w)
    decreases v
  {
    match v
    case Object(fields) => Object(SetInFields(key, n, fields))
    case _ => v
  }

  /** Every value of `key` replaced by `n`, at any depth. */
  function SetInFields(key: string, n: Value, fields: Fields): (r: Fields)
    ensures r.End? <==> fields.End?
    ensures Clean(n) && CleanFields(fields) ==> CleanFields(r)
    decreases fields
  {
    match fields
    case End => End
    case Field(k, value, rest) => Field(k, if k == key then n else SetIn(key, n, value), SetInFields(key, n, rest))
  }

  /** Every value of the pattern's key is a number that the pattern matches as a whole. */
  predicate Fits(p: Pattern, v: Value) { v.Object? ==> FieldsFit(p, v.fields) }

  predicate FieldsFit(p: Pattern, fields: Fields) {
    fields.Field? ==>
      && (if fields.key == KeyOf(p) then fields.value.Number? && (p.StartPattern? ==> fields.value.fraction == "")
          else Fits(p, fields.value))
      && FieldsFit(p, fields.rest)
  }

  lemma LeadIsKey(p: Pattern)
    ensures Lead(p) == Key(KeyOf(p)) == Quoted(KeyOf(p), true) && Searchable(KeyOf(p))
  {
  }

  lemma OneCopied(p: Pattern, number: string, s: string)
    requires s != "" && s[0] != '"'
    ensures Substitute(p, number, s) == [s[0]] + Substitute(p, number, s[1..])
  {
    hide Span;
    assert Lead(p)[0] == '"';
    hide Lead;
  }

  lemma {:induction false} Copied(p: Pattern, number: string, a: string, b: string)
    requires '"' !in a
    ensures Substitute(p, number, a + b) == a + Substitute(p, number, b)
  {
    hide Substitute;
    if a == "" {
      assert a + b == b;
    } else {
      assert forall c :: c in a[1..] ==> c in a;
      Copied(p, number, a[1..], b);
      assert (a + b)[1..] == a[1..] + b && (a + b)[0] == a[0] && a[0] in a;
      OneCopied(p, number, a + b);
    }
  }

  lemma QuoteStepped(p: Pattern, number: string, s: string)
    requires s != "" && (Lead(p) <= s ==> Span(p, s[|Lead(p)|..]) == 0)
    ensures Substitute(p, number, s) == [s[0]] + Substitute(p, number, s[1..])
  {
    hide Span, Lead;
  }

  /** A key that no number follows is left alone. */
  lemma NoNumberCopied(p: Pattern, number: string, s: string)
    requires Span(p, s) == 0
    ensures Substitute(p, number, Lead(p) + s) == Lead(p) + Substitute(p, number, s)
  {
    hide Span, Substitute, Lead;
    LeadParts(p, s);
    var all, close := Lead(p) + s, "\":" + s;
    QuoteStepped(p, number, all);
    Copied(p, number, KeyOf(p), close);
    assert !(Lead(p) <= close) by {
      assert close[1] == ':';
    }
    QuoteStepped(p, number, close);
    assert close[1..] == ":" + s;
    Copied(p, number, ":", s);
    LeadParts(p, Substitute(p, number, s));
    assert "\"" + (":" + Substitute(p, number, s)) == "\":" + Substitute(p, number, s);
  }

  /** A key and what follows it, character by character as far as matters. */
  lemma LeadParts(p: Pattern, s: string)
    ensures var all := Lead(p) + s;
            && all == "\"" + (KeyOf(p) + ("\":" + s)) && all[0] == '"' && all[1..] == KeyOf(p) + ("\":" + s)
            && all[|Lead(p)|..] == s
    ensures '"' !in KeyOf(p) && |Lead(p)| > 1 && Lead(p)[1] != ':'
  {
    assert Lead(p) == "\"" + (KeyOf(p) + "\":");
    assert Lead(p)[1] == KeyOf(p)[0];
  }

  lemma QuotedCopied(p: Pattern, number: string, s: string, rest: string)
    requires PlainText(s) && rest != "" && rest[0] in ",}:" && (s == KeyOf(p) ==> rest[0] != ':')
    ensures Substitute(p, number, "\"" + (s + ("\"" + rest))) == "\"" + (s + ("\"" + Substitute(p, number, rest)))
  {
    hide Span;
    LeadIsKey(p);
    SameQuoted(KeyOf(p), true, s, rest);
    PlainHasNoQuote(s);
    var all := "\"" + (s + ("\"" + rest));
    assert all[1..] == s + ("\"" + rest);
    Copied(p, number, s, "\"" + rest);
    assert ("\"" + rest)[1..] == rest && ("\"" + rest)[1] == rest[0] && Lead(p)[1] == KeyOf(p)[0];
  }

  lemma {:induction false} DecimalSpanOf(s: string, tail: string)
    requires forall i :: 0 <= i < |s| ==> IsDigit(s[i]) || s[i] == '.'
    requires EndsValue(tail)
    ensures DecimalSpan(s + tail) == |s|
  {
    if s == "" {
      assert s + tail == tail;
    } else {
      DecimalSpanOf(s[1..], tail);
      assert (s + tail)[1..] == s[1..] + tail;
    }
  }

  lemma SpanOf(p: Pattern, n: Value, tail: string)
    requires n.Number? && Clean(n) && (p.StartPattern? ==> n.fraction == "") && EndsValue(tail)
    ensures Span(p, NumberText(n) + tail) == |NumberText(n)| > 0
  {
    hide Digits;
    match p
    case TimePattern =>
      assert forall i :: 0 <= i < |n.fraction| ==> IsDigit(n.fraction[i]);
      DecimalSpanOf(NumberText(n), tail);
    case StartPattern =>
      var s := NumberText(n) + tail;
      assert NumberText(n) == Digits(n.whole);
      DigitSpanOf(Digits(n.whole), tail);
      assert IsDigit(s[0]) && s[0..] == s;
      assert s[|Digits(n.whole)|] == tail[0];
  }

  lemma LeadNotEmpty(p: Pattern)
    ensures |Lead(p)| > 0
  {
  }

  lemma MatchStepped(p: Pattern, number: string, s: string)
    requires Lead(p) <= s && Span(p, s[|Lead(p)|..]) > 0
    ensures Substitute(p, number, s)
         == Lead(p) + (number + Substitute(p, number, s[|Lead(p)| + Span(p, s[|Lead(p)|..])..]))
  {
    LeadNotEmpty(p);
    hide Span, Lead;
  }

  /** A match is replaced. */
  lemma MatchReplaced(p: Pattern, number: string, found: string, rest: string)
    requires Span(p, found + rest) == |found| > 0
    ensures Substitute(p, number, Lead(p) + (found + rest)) == Lead(p) + (number + Substitute(p, number, rest))
  {
    hide Span, Lead, Substitute;
    var s := Lead(p) + (found + rest);
    assert s[|Lead(p)|..] == found + rest;
    assert s[|Lead(p)| + |found|..] == rest;
    MatchStepped(p, number, s);
  }

  lemma NumberReplaced(p: Pattern, number: string, n: Value, tail: string)
    requires n.Number? && Clean(n) && (p.StartPattern? ==> n.fraction == "") && EndsValue(tail)
    ensures Substitute(p, number, Key(KeyOf(p)) + Print(n, tail)) == Key(KeyOf(p)) + (number + Substitute(p, number, tail))
  {
    hide Span, NumberText, Print, Substitute, Lead;
    PrintNumber(n, tail);
    LeadIsKey(p);
    SpanOf(p, n, tail);
    MatchReplaced(p, number, NumberText(n), tail);
  }

  /** Substituting in the text of an object puts the new number in place of every value of the pattern's key. */
  lemma {:induction false} SubstitutedText(p: Pattern, n: Value, v: Value, tail: string)
    requires n.Number? && Clean(n) && Clean(v) && Fits(p, v) && EndsValue(tail)
    ensures Substitute(p, NumberText(n), Print(v, tail)) == Print(SetIn(KeyOf(p), n, v), Substitute(p, NumberText(n), tail))
    decreases v, 0
  {
    hide PrintFields, Substitute, NumberText, KeyOf, Span;
    var number := NumberText(n);
    match v
    case Number(_, _) =>
      PrintNumber(v, tail);
      PrintNumber(v, Substitute(p, number, tail));
      NumberHasNoQuote(v);
      Copied(p, number, NumberText(v), tail);
    case String(s) =>
      QuotedCopied(p, number, s, tail);
    case Object(fields) =>
      SubstitutedFields(p, n, fields, tail);
      Copied(p, number, "{", PrintFields(fields, tail));
  }

  lemma {:induction false} SubstitutedFields(p: Pattern, n: Value, fields: Fields, tail: string)
    requires n.Number? && Clean(n) && fields.Field? && CleanFields(fields) && FieldsFit(p, fields)
    ensures Substitute(p, NumberText(n), PrintFields(fields, tail))
         == PrintFields(SetInFields(KeyOf(p), n, fields), Substitute(p, NumberText(n), tail))
    decreases fields, 0
  {
    hide PrintFields, Substitute, NumberText, KeyOf, Span, Print;
    var number, sub := NumberText(n), Substitute(p, NumberText(n), tail);
    var key, value, rest := fields.key, fields.value, fields.rest;
    var now, nowRest := SetInFields(KeyOf(p), n, fields), SetInFields(KeyOf(p), n, rest);
    var after := After(rest, tail);
    PrintField(key, value, rest, tail);
    PrintField(key, now.value, nowRest, sub);
    SubstitutedAfter(p, n, rest, tail);
    if key == KeyOf(p) {
      NumberReplaced(p, number, value, after);
      PrintNumber(n, After(nowRest, sub));
    } else {
      KeyCopied(p, number, key, Print(value, after));
      SubstitutedText(p, n, value, after);
    }
  }

  lemma {:induction false} SubstitutedAfter(p: Pattern, n: Value, rest: Fields, tail: string)
    requires n.Number? && Clean(n) && CleanFields(rest) && FieldsFit(p, rest)
    ensures Substitute(p, NumberText(n), After(rest, tail))
         == After(SetInFields(KeyOf(p), n, rest), Substitute(p, NumberText(n), tail))
    decreases rest, 1
  {
    hide PrintFields, Substitute, NumberText, KeyOf;
    if rest.End? {
      Copied(p, NumberText(n), "}", tail);
    } else {
      Copied(p, NumberText(n), ",", PrintFields(rest, tail));
      SubstitutedFields(p, n, rest, tail);
    }
  }

  lemma KeyCopied(p: Pattern, number: string, key: string, s: string)
    requires PlainText(key) && key != KeyOf(p)
    ensures Substitute(p, number, Key(key) + s) == Key(key) + Substitute(p, number, s)
  {
    hide Substitute, KeyOf;
    assert Key(key) + s == "\"" + (key + ("\"" + (":" + s)));
    QuotedCopied(p, number, key, ":" + s);
    Copied(p, number, ":", s);
    assert Key(key) + Substitute(p, number, s) == "\"" + (key + ("\"" + (":" + Substitute(p, number, s))));
  }

  // ---- The time in a line ----

  /** The last field at the top with a time: a number that another field follows, and no other time anywhere. */
  predicate OneTime(fields: Fields) {
    && fields.Field?
    && (if fields.key == "ts" then
          fields.value.Number? && fields.rest.Field? && !FieldsHaveKey("ts", fields.rest)
        else !HasKey("ts", fields.value) && OneTime(fields.rest))
  }

  predicate Timed(v: Value) { v.Object? && OneTime(v.fields) }

  function TimeIn(fields: Fields): (n: Value)
    requires OneTime(fields)
    ensures n.Number? && (CleanFields(fields) ==> Clean(n))
  {
    if fields.key == "ts" then fields.value else TimeIn(fields.rest)
  }

  lemma {:induction false} AfterLastSome(part: string, s: string)
    requires part != ""
    ensures AfterLast(part, s).Some? <==> Contains(s, part)
  {
    if s != "" {
      AfterLastSome(part, s[1..]);
    }
  }

  lemma {:induction false} AfterLastIn(part: string, a: string, b: string)
    requires part != "" && Contains(b, part)
    ensures AfterLast(part, a + b) == AfterLast(part, b)
  {
    AfterLastSome(part, b);
    if a == "" {
      assert a + b == b;
    } else {
      AfterLastIn(part, a[1..], b);
      assert (a + b)[1..] == a[1..] + b;
    }
  }

  /** What follows the last key is the text from its value on. */
  lemma {:induction false} AfterTimeKey(fields: Fields, tail: string)
    requires CleanFields(fields) && OneTime(fields) && !Contains(tail, Quoted("ts", true))
    ensures Contains(PrintFields(fields, tail), Quoted("ts", true))
    ensures exists rest :: AfterLast("\"ts\":", PrintFields(fields, tail)) == Some(Print(TimeIn(fields), "," + rest))
    decreases fields
  {
    hide PrintFields, Print, Contains;
    var key, value, after := fields.key, fields.value, After(fields.rest, tail);
    var part := Quoted("ts", true);
    assert part == "\"ts\":" && Searchable("ts");
    PrintField(key, value, fields.rest, tail);
    FoundInFields("ts", true, fields, tail);
    OneTimeHasKey(fields);
    if key == "ts" {
      FoundInText("ts", true, value, after);
      FoundInFields("ts", true, fields.rest, tail);
      NotFoundIn(",", PrintFields(fields.rest, tail), part);
      LastKeyFound(Print(value, after));
    } else {
      PrintAppend(value, "", after);
      assert "" + after == after;
      var before := (Key(key) + Print(value, "")) + ",";
      Regroup(Key(key), Print(value, ""), after);
      Regroup(Key(key) + Print(value, ""), ",", PrintFields(fields.rest, tail));
      AfterTimeKey(fields.rest, tail);
      AfterLastIn(part, before, PrintFields(fields.rest, tail));
    }
  }

  lemma {:induction false} OneTimeHasKey(fields: Fields)
    requires OneTime(fields)
    ensures FieldsHaveKey("ts", fields)
  {
    if fields.key != "ts" {
      OneTimeHasKey(fields.rest);
    }
  }

  lemma LastKeyFound(s: string)
    requires !Contains(s, "\"ts\":")
    ensures AfterLast("\"ts\":", Key("ts") + s) == Some(s)
  {
    hide Contains;
    var part, all := "\"ts\":", Key("ts") + s;
    assert all == part + s;
    assert all[1..] == "ts\":" + s;
    assert "ts\":" + s == "ts" + ("\":" + s);
    NotFoundIn("ts", "\":" + s, part);
    ColonNotKey(s);
    AfterLastSome(part, all[1..]);
    StripPrefixOf(part, s);
  }

  lemma ColonNotKey(s: string)
    requires !Contains(s, "\"ts\":")
    ensures !Contains("\":" + s, "\"ts\":")
  {
    var t := "\":" + s;
    assert t[1..] == ":" + s && (":" + s)[1..] == s;
    assert t[1] == ':' && (":" + s)[0] == ':';
  }

  lemma {:induction false} FirstPieceOf(a: string, c: char, b: string)
    requires c !in a
    ensures FirstPiece(c, a + ([c] + b)) == a
  {
    if a == "" {
      assert a + ([c] + b) == [c] + b;
    } else {
      assert forall d :: d in a[1..] ==> d in a;
      FirstPieceOf(a[1..], c, b);
      assert (a + ([c] + b))[1..] == a[1..] + ([c] + b) && a[0] in a;
    }
  }

  lemma NumberParses(n: Value)
    requires n.Number? && Clean(n)
    ensures ToDecimal(NumberText(n)) == Some(Decimal(n.whole, n.fraction))
  {
    hide Digits, Text.Value;
    DigitsRoundTrip(n.whole);
    var rest := if n.fraction == "" then "" else "." + n.fraction;
    DigitSpanOf(Digits(n.whole), rest);
    assert n.fraction != "" ==> NumberText(n)[|Digits(n.whole)| + 1..] == n.fraction;
  }

  /** The script reads the time that is in the line. */
  lemma TimeFound(v: Value, tail: string)
    requires Clean(v) && Timed(v) && !Contains(tail, Quoted("ts", true))
    ensures var ts := TimeIn(v.fields);
            ToDecimal(FirstPiece(',', LastPiece("\"ts\":", Print(v, tail)))) == Some(Decimal(ts.whole, ts.fraction))
  {
    hide Print, PrintFields, ToDecimal, Contains;
    var ts := TimeIn(v.fields);
    assert Quoted("ts", true) == "\"ts\":";
    AfterTimeKey(v.fields, tail);
    var rest :| AfterLast("\"ts\":", PrintFields(v.fields, tail)) == Some(Print(ts, "," + rest));
    AfterLastIn("\"ts\":", "{", PrintFields(v.fields, tail));
    PrintNumber(ts, "," + rest);
    NumberHasNoQuote(ts);
    FirstPieceOf(NumberText(ts), ',', rest);
    NumberParses(ts);
    ObjectText(v, tail);
  }

  lemma ObjectText(v: Value, tail: string)
    requires v.Object?
    ensures Print(v, tail) == "{" + PrintFields(v.fields, tail)
  {
  }
}
