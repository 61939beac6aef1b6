/** The merging script on one line of a trace: the object comes back with its time moved and nothing else changed. */
module TraceMergeLine {
  import opened Text
  import opened Words
  import opened Trimming
  import opened Json
  import opened Micros
  import opened ChromeTrace
  import opened TraceMerge
  import opened TraceMergeText

  // ---- The object a rewritten line stands for ----

  function TimePlus(n: Value, offset: nat): (m: Value)
    requires n.Number?
    ensures m.Number? && (Clean(n) ==> Clean(m))
  {
    Number(n.whole + offset, Normal(n.fraction))
  }

  function Rebased(v: Value, offset: nat, epoch: nat): (w: Value)
    ensures Clean(v) ==> Clean(w)
  {
    if Timed(v) then SetIn("ts", TimePlus(TimeIn(v.fields), offset), v)
    else SetIn("start_time", Number(epoch, ""), v)
  }

  predicate IsMetadata(v: Value) { v.Object? && v.fields.Field? && v.fields.key == "ph" && v.fields.value == String("M") }

  /** Metadata with no time in it, and no start time but a whole number. */
  predicate Untimed(v: Value) { IsMetadata(v) && !HasKey("ts", v) && Fits(StartPattern, v) }

  /** No string in it is the name of the key for times. */
  predicate Quiet(v: Value) { !HasString("ts", v) }

  // ---- Rewriting a line ----

  lemma {:induction false} NoKeyFits(v: Value)
    requires !HasKey("ts", v)
    ensures Fits(TimePattern, v)
    decreases v
  {
    if v.Object? {
      NoKeyFieldsFit(v.fields);
    }
  }

  lemma {:induction false} NoKeyFieldsFit(fields: Fields)
    requires !FieldsHaveKey("ts", fields)
    ensures FieldsFit(TimePattern, fields)
    decreases fields
  {
    if fields.Field? {
      NoKeyFits(fields.value);
      NoKeyFieldsFit(fields.rest);
    }
  }

  lemma {:induction false} TimedFits(fields: Fields)
    requires OneTime(fields)
    ensures FieldsFit(TimePattern, fields)
  {
    if fields.key == "ts" {
      NoKeyFieldsFit(fields.rest);
    } else {
      NoKeyFits(fields.value);
      TimedFits(fields.rest);
    }
  }

  lemma EndOfLine(p: Pattern, number: string)
    ensures !Contains(",\n", Quoted("ts", true)) && !Contains(",\n", Quoted("ts", false))
    ensures Substitute(p, number, ",\n") == ",\n"
  {
    Copied(p, number, ",\n", "");
    NotFoundIn(",\n", "", Quoted("ts", true));
    NotFoundIn(",\n", "", Quoted("ts", false));
    assert ",\n" + "" == ",\n";
  }

  lemma TimedLine(v: Value, offset: nat, epoch: nat)
    requires Clean(v) && Timed(v)
    ensures Rebase(Line(v), offset, epoch) == Some(Line(Rebased(v, offset, epoch)))
  {
    hide Print, Substitute, Contains, HasString, ToDecimal, LastPiece, FirstPiece;
    var ts := TimeIn(v.fields);
    var moved := TimePlus(ts, offset);
    assert Quoted("ts", false) == "\"ts\"" && Searchable("ts");
    OneTimeHasKey(v.fields);
    FoundInText("ts", false, v, ",\n");
    EndOfLine(TimePattern, NumberText(moved));
    TimeFound(v, ",\n");
    TimedFits(v.fields);
    SubstitutedText(TimePattern, moved, v, ",\n");
  }

  lemma {:induction false} NothingReplaced(p: Pattern, number: string, s: string)
    requires !Contains(s, Lead(p))
    ensures Substitute(p, number, s) == s
  {
    hide Span;
    if s != "" {
      NothingReplaced(p, number, s[1..]);
      assert [s[0]] + s[1..] == s;
    }
  }

  lemma {:induction false} KeyContainsName(s: string)
    requires Contains(s, Lead(StartPattern))
    ensures Contains(s, "start_time")
  {
    if Lead(StartPattern) <= s {
      assert s[1..] == Lead(StartPattern)[1..] + s[|Lead(StartPattern)|..];
      assert "start_time" <= s[1..];
      assert Contains(s[1..], "start_time");
    } else {
      KeyContainsName(s[1..]);
    }
  }

  lemma BraceIsNoNumber(s: string)
    requires s != "" && s[0] == '{'
    ensures ToDecimal(FirstPiece(',', s)) == None
  {
  }

  /** A line with no time: its start time is replaced, unless it has the string that is taken for a time. */
  lemma UntimedLine(v: Value, offset: nat, epoch: nat)
    requires Clean(v) && Untimed(v)
    ensures Rebase(Line(v), offset, epoch) == if Quiet(v) then Some(Line(Rebased(v, offset, epoch))) else None
  {
    hide Substitute, Contains, HasString, ToDecimal, FirstPiece, PrintFields;
    var n, line := Number(epoch, ""), Line(v);
    assert Quoted("ts", false) == "\"ts\"" && Quoted("ts", true) == "\"ts\":" && Searchable("ts");
    FoundInText("ts", false, v, ",\n");
    FoundInText("ts", true, v, ",\n");
    EndOfLine(StartPattern, NumberText(n));
    AfterLastSome("\"ts\":", line);
    BraceIsNoNumber(line);
    NotTimed(v);
    SubstitutedText(StartPattern, n, v, ",\n");
    assert NumberText(n) == Digits(epoch) by {
      AppendEmpty(Digits(epoch));
    }
    if !Contains(line, Lead(StartPattern)) {
      NothingReplaced(StartPattern, NumberText(n), line);
    } else {
      KeyContainsName(line);
    }
  }

  lemma NotTimed(v: Value)
    requires Untimed(v)
    ensures !Timed(v)
  {
    if Timed(v) {
      OneTimeHasKey(v.fields);
    }
  }

  // ---- What changes, and what does not ----

  /** The same fields, but for the values of one key. */
  predicate SameBut(key: string, a: Fields, b: Fields) {
    match (a, b)
    case (End, End) => true
    case (Field(k, v, more), Field(l, w, others)) => k == l && (k != key ==> v == w) && SameBut(key, more, others)
    case _ => false
  }

  lemma {:induction false} SetNowhere(key: string, n: Value, v: Value)
    requires !HasKey(key, v)
    ensures SetIn(key, n, v) == v
    decreases v
  {
    if v.Object? {
      SetInNoField(key, n, v.fields);
    }
  }

  lemma {:induction false} SetInNoField(key: string, n: Value, fields: Fields)
    requires !FieldsHaveKey(key, fields)
    ensures SetInFields(key, n, fields) == fields
    decreases fields
  {
    if fields.Field? {
      SetNowhere(key, n, fields.value);
      SetInNoField(key, n, fields.rest);
    }
  }

  lemma {:induction false} SameFields(key: string, fields: Fields)
    ensures SameBut(key, fields, fields)
  {
    if fields.Field? {
      SameFields(key, fields.rest);
    }
  }

  lemma {:induction false} TimeSet(fields: Fields, n: Value)
    requires OneTime(fields) && n.Number?
    ensures var now := SetInFields("ts", n, fields);
            SameBut("ts", fields, now) && OneTime(now) && TimeIn(now) == n
  {
    if fields.key == "ts" {
      SetInNoField("ts", n, fields.rest);
      SameFields("ts", fields.rest);
    } else {
      SetNowhere("ts", n, fields.value);
      TimeSet(fields.rest, n);
    }
  }

  function Amount(n: Value): real
    requires n.Number? && AllDigits(n.fraction)
  {
    n.whole as real + Fraction(n.fraction)
  }

  /** What the tracer prints for a time in the exact range amounts to its microseconds. */
  lemma MicroAmount(t: uint64)
    requires t <= EXACT_LIMIT
    ensures Micro(t).Number? && AllDigits(Micro(t).fraction) && Amount(Micro(t)) == t as real / 1000.0
  {
    hide Pad3, PrintedNs, Amount;
    PrintsExactly(t);
    Pad3Value(t % 1000);
    ThousandsAndRest(t);
    AmountOf(t / 1000, Pad3(t % 1000));
  }

  lemma AmountOf(whole: nat, fraction: string)
    requires AllDigits(fraction) && |fraction| == 3
    ensures Amount(Number(whole, fraction)) == whole as real + Text.Value(fraction) as real / 1000.0
  {
    Pow10Three();
    hide Text.Value, Pow10;
  }

  lemma Pow10Three()
    ensures Pow10(3) == 1000.0
  {
    assert Pow10(1) == 10.0 && Pow10(2) == 100.0;
  }

  lemma ThousandsAndRest(t: nat)
    ensures (t / 1000) as real + (t % 1000) as real / 1000.0 == t as real / 1000.0
  {
    assert t == 1000 * (t / 1000) + t % 1000;
  }

  /**
   A line with a time is rewritten to the line of the same object but for the time. The new time counts from the
   epoch what the old one counted from its trace's start, so it is no earlier, and the line reads back as such.
   */
  lemma TimesKept(v: Value, start: nat, epoch: nat)
    requires Clean(v) && Timed(v) && epoch <= start
    ensures var w := Rebased(v, start - epoch, epoch);
            && Rebase(Line(v), start - epoch, epoch) == Some(Line(w))
            && ReadValue(Line(w)) == Some((w, ",\n"))
            && Timed(w) && SameBut("ts", v.fields, w.fields)
            && Amount(TimeIn(w.fields)) + epoch as real == Amount(TimeIn(v.fields)) + start as real
            && Amount(TimeIn(w.fields)) >= Amount(TimeIn(v.fields))
  {
    hide Rebase, Print, ReadValue;
    var ts := TimeIn(v.fields);
    TimedLine(v, start - epoch, epoch);
    TimeSet(v.fields, TimePlus(ts, start - epoch));
    NormalSame(ts.fraction);
    ReadValueOf(Rebased(v, start - epoch, epoch), ",\n");
  }
}
