/** Which lines and objects the merging script keeps, in terms of the text that occurs in them. */
module TraceMergeFilter {
  import opened Text
  import opened Words
  import opened Json
  import opened Micros
  import opened ChromeTrace
  import opened TraceFile
  import opened TraceMerge
  import opened TraceMergeText
  import opened TraceMergeLine
  import opened TraceMergeFile

  ghost predicate Occurs(part: string, s: string) { exists a, b :: s == a + (part + b) }

  /** Searching finds what occurs. */
  lemma {:induction false} ContainsMeans(s: string, part: string)
    ensures Contains(s, part) <==> Occurs(part, s)
  {
    if part <= s {
      assert s == "" + (part + s[|part|..]);
    } else if Contains(s, part) {
      ContainsMeans(s[1..], part);
      var a, b :| s[1..] == a + (part + b);
      assert s == ([s[0]] + a) + (part + b);
    }
    if Occurs(part, s) {
      var a, b :| s == a + (part + b);
      FoundInside(a, part, b);
    }
  }

  /** Text with an event's key in it passes: metadata always, and otherwise when there is no filter or one of them occurs. */
  ghost predicate Passes(filters: seq<string>, line: string) {
    && Occurs("\"ph\":", line)
    && (filters == [] || Occurs("\"ph\":\"M\"", line) || exists i :: 0 <= i < |filters| && Occurs(filters[i], line))
  }

  lemma KeepMeans(filters: seq<string>, line: string)
    ensures Keep(filters, line) <==> Passes(filters, line)
  {
    hide Contains, Occurs;
    ContainsMeans(line, "\"ph\":");
    ContainsMeans(line, "\"ph\":\"M\"");
    forall i | 0 <= i < |filters| ensures Contains(line, filters[i]) <==> Occurs(filters[i], line) {
      ContainsMeans(line, filters[i]);
    }
  }

  /** A line is kept exactly if it passes. */
  lemma KeptIffOccurs(filters: seq<string>, lines: seq<string>, i: nat)
    requires i < |lines|
    ensures i in KeptAt(filters, lines) <==> Passes(filters, lines[i])
  {
    hide Keep, Passes;
    KeptIffPasses(filters, lines, i);
    KeepMeans(filters, lines[i]);
  }

  // ---- Objects ----

  /** An event as the tracer writes it: its kind comes first, and no other field is called so. */
  predicate IsEvent(v: Value) {
    && v.Object? && v.fields.Field? && v.fields.key == "ph" && v.fields.value.String?
    && !FieldsHaveKey("ph", v.fields.rest)
  }

  /** The kept objects in order, one by one. */
  lemma {:induction false} KeptObjectsAppend(filters: seq<string>, a: seq<Value>, b: seq<Value>)
    ensures KeptObjects(filters, a + b) == KeptObjects(filters, a) + KeptObjects(filters, b)
  {
    hide Keep, Line;
    if b == [] {
      assert a + b == a;
    } else {
      var n := |b| - 1;
      KeptObjectsAppend(filters, a, b[..n]);
      assert (a + b)[..|a| + n] == a + b[..n] && (a + b)[|a| + n] == b[n];
    }
  }

  lemma LongerFound(s: string, part: string, more: string)
    requires Contains(s, part + more)
    ensures Contains(s, part)
  {
    ContainsMeans(s, part + more);
    var a, b :| s == a + ((part + more) + b);
    assert s == a + (part + (more + b));
    FoundInside(a, part, more + b);
  }

  /** The kind of an event, as text: its key occurs once, with its value after it. */
  lemma EventText(v: Value)
    requires Clean(v) && IsEvent(v)
    ensures Contains(Line(v), "\"ph\":")
    ensures Contains(Line(v), "\"ph\":\"M\"") <==> v.fields.value == String("M")
  {
    hide Print, PrintFields, Contains;
    var kind, rest, part := v.fields.value.text, v.fields.rest, "\"ph\":\"M\"";
    var after := After(rest, ",\n");
    var more := "\"" + (kind + ("\"" + after));
    assert Quoted("ph", true) == "\"ph\":" && Searchable("ph") && part == "\"ph\":" + "\"M\"";
    FoundInText("ph", true, v, ",\n");
    LineFromKind(v);
    var tail := Key("ph") + more;
    NotFoundIn("{", tail, part);
    KindFound(kind, after);
    NothingAfterKind(rest, kind);
    if Contains(after, part) {
      LongerFound(after, "\"ph\":", "\"M\"");
    }
  }

  /** The line of an event, from its kind on. */
  lemma LineFromKind(v: Value)
    requires Clean(v) && IsEvent(v)
    ensures Line(v) == "{" + (Key("ph") + ("\"" + (v.fields.value.text + ("\"" + After(v.fields.rest, ",\n")))))
  {
    hide PrintFields;
    PrintField("ph", v.fields.value, v.fields.rest, ",\n");
  }

  lemma NothingAfterKind(rest: Fields, kind: string)
    requires CleanFields(rest) && !FieldsHaveKey("ph", rest) && PlainText(kind)
    ensures !Contains(After(rest, ",\n"), "\"ph\":")
  {
    hide PrintFields;
    assert Quoted("ph", true) == "\"ph\":" && Searchable("ph");
    hide Contains;
    NotFoundIn(",\n", "", "\"ph\":");
    assert ",\n" + "" == ",\n";
    NothingInNothing("\"ph\":");
    if rest.End? {
      NotFoundIn("}", ",\n", "\"ph\":");
    } else {
      FoundInFields("ph", true, rest, ",\n");
      NotFoundIn(",", PrintFields(rest, ",\n"), "\"ph\":");
    }
  }

  lemma NothingInNothing(part: string)
    requires part != ""
    ensures !Contains("", part)
  {
  }

  /** At the start of an event's text: the kind is found there or in what follows. */
  lemma KindFound(kind: string, after: string)
    requires PlainText(kind) && EndsValue(after)
    ensures Contains(Key("ph") + ("\"" + (kind + ("\"" + after))), "\"ph\":\"M\"")
            <==> kind == "M" || Contains(after, "\"ph\":\"M\"")
  {
    var part := "\"ph\":\"M\"";
    var more := "\"" + (kind + ("\"" + after));
    var s := Key("ph") + more;
    assert part == Key("ph") + "\"M\"";
    assert part <= s <==> "\"M\"" <= more by {
      assert s[|Key("ph")|..] == more && part[|Key("ph")|..] == "\"M\"";
      assert s[..|Key("ph")|] == part[..|Key("ph")|] == Key("ph");
      StartsTogether(Key("ph"), "\"M\"", more);
    }
    assert Quoted("M", false) == "\"M\"" && PlainText("M");
    SameQuoted("M", false, kind, after);
    PlainHasNoQuote(kind);
    var t := "ph" + ("\"" + (":" + more));
    assert s[1..] == t;
    hide Contains;
    NotFoundIn("ph", "\"" + (":" + more), part);
    QuoteThen("\"" + (":" + more), part);
    NotFoundIn(":", more, part);
    assert ("\"" + (":" + more))[1..] == ":" + more;
    assert more[1..] == kind + ("\"" + after);
    if kind == "" {
      assert more[1] == '"';
    } else {
      assert more[1] == kind[0];
    }
    QuoteSkipped(kind, after);
    ContainsUnfold(s, part);
  }

  lemma StartsTogether(a: string, b: string, c: string)
    ensures a + b <= a + c <==> b <= c
  {
    if a + b <= a + c {
      assert (a + b)[|a|..] == b && (a + c)[|a|..] == c;
      assert forall i :: 0 <= i < |b| ==> b[i] == (a + b)[|a| + i] == (a + c)[|a| + i] == c[i];
    }
  }

  lemma ContainsUnfold(s: string, part: string)
    requires s != ""
    ensures Contains(s, part) <==> part <= s || Contains(s[1..], part)
  {
  }

  lemma QuoteThen(s: string, part: string)
    requires |s| > 1 && |part| > 1 && s[1] != part[1]
    ensures Contains(s, part) <==> Contains(s[1..], part)
  {
  }

  /** No kind holds the text searched for: it would have to hold a quote. */
  lemma QuoteSkipped(kind: string, after: string)
    requires PlainText(kind) && EndsValue(after)
    ensures Contains("\"" + (kind + ("\"" + after)), "\"ph\":\"M\"") <==> Contains(after, "\"ph\":\"M\"")
  {
    var part, more, close := "\"ph\":\"M\"", "\"" + (kind + ("\"" + after)), "\"" + after;
    assert close[1] == after[0] && close[1..] == after;
    QuoteThen(close, part);
    PlainHasNoQuote(kind);
    NotFoundIn(kind, close, part);
    assert more[1..] == kind + close;
    SameQuoted("ph", true, kind, after);
    assert Quoted("ph", true) == "\"ph\":" && PlainText("ph") && part == "\"ph\":" + "\"M\"";
    assert part <= more ==> "\"ph\":" <= more;
    ContainsUnfold(more, part);
  }

  /** Which events are kept: all without filters, metadata always, and others when some filter occurs in their line. */
  lemma EventKept(filters: seq<string>, v: Value)
    requires Clean(v) && IsEvent(v)
    ensures KeptObjects(filters, [v]) == (if filters == [] || v.fields.value == String("M")
                                            || exists i :: 0 <= i < |filters| && Occurs(filters[i], Line(v)) then [v] else [])
  {
    EventText(v);
    KeepMeans(filters, Line(v));
    ContainsMeans(Line(v), "\"ph\":");
    ContainsMeans(Line(v), "\"ph\":\"M\"");
    hide Contains, Occurs, Keep, Line, Clean;
    assert [v][..0] == [];
  }

  // ---- The objects of a trace are events ----

  lemma SliceIsEvent(pid: uint64, tid: Value, name: string, start: uint64, delta: uint64, rest: Fields)
    requires !tid.Object? && !FieldsHaveKey("ph", rest)
    ensures IsEvent(Event("X", pid, tid, Slice(name, start, delta, rest)))
  {
    NoKindIn("dur", Micro(delta), rest);
    NoKindIn("ts", Micro(start), Field("dur", Micro(delta), rest));
    NoKindIn("name", String(name), Field("ts", Micro(start), Field("dur", Micro(delta), rest)));
    EventIsEvent("X", pid, tid, Slice(name, start, delta, rest));
    hide FieldsHaveKey, Micro;
  }

  lemma NoKindIn(key: string, value: Value, rest: Fields)
    requires key != "ph" && !value.Object? && !FieldsHaveKey("ph", rest)
    ensures !FieldsHaveKey("ph", Field(key, value, rest))
  {
  }

  lemma EventIsEvent(ph: string, pid: uint64, tid: Value, rest: Fields)
    requires !tid.Object? && !FieldsHaveKey("ph", rest)
    ensures IsEvent(Event(ph, pid, tid, rest))
  {
    NoKindIn("tid", tid, rest);
    NoKindIn("pid", Int(pid), Field("tid", tid, rest));
    hide FieldsHaveKey;
  }

  lemma MetaIsEvent(name: string, pid: uint64, tid: Value, rest: Fields)
    requires !tid.Object? && !FieldsHaveKey("ph", rest)
    ensures IsEvent(MetaEvent(name, pid, tid, rest)) && MetaEvent(name, pid, tid, rest).fields.value == String("M")
  {
    NoKindIn("tid", tid, rest);
    NoKindIn("pid", Int(pid), Field("tid", tid, rest));
    NoKindIn("name", String(name), Field("pid", Int(pid), Field("tid", tid, rest)));
    hide FieldsHaveKey;
  }

  lemma ArgsNoKind(key: string, value: Value)
    requires key != "ph" && !value.Object?
    ensures !FieldsHaveKey("ph", Args(key, value)) && !FieldsHaveKey("ph", End)
  {
    assert !FieldsHaveKey("ph", Field(key, value, End));
  }

  lemma IdArgsNoKind(id: uint64)
    ensures !FieldsHaveKey("ph", IdArgs(id)) && !FieldsHaveKey("ph", End)
  {
    ArgsNoKind("id", Int(id));
  }

  lemma FlowIsEvent(ph: string, pid: uint64, tid: Value, start: uint64, id: uint64)
    requires !tid.Object?
    ensures IsEvent(Flow(ph, pid, tid, start, id))
  {
    var f3 := Field("id", Int(id), End);
    var f2 := Field("ts", Micro(start), f3);
    var f1 := Field("cat", String("Commands"), f2);
    assert !FieldsHaveKey("ph", End);
    NoKindIn("id", Int(id), End);
    NoKindIn("ts", Micro(start), f3);
    NoKindIn("cat", String("Commands"), f2);
    NoKindIn("name", String("Command"), f1);
    EventIsEvent(ph, pid, tid, Field("name", String("Command"), f1));
    hide FieldsHaveKey, Micro;
  }

  lemma StageIsEvent(pid: uint64, tid: Value, name: string, stage: nat, start: uint64, delta: uint64, id: uint64)
    requires !tid.Object?
    ensures IsEvent(StageObject(pid, tid, name, stage, start, delta, id))
  {
    ArgsNoKind("id", Int(id));
    NoKindIn("cname", String(Colour(stage)), IdArgs(id));
    SliceIsEvent(pid, tid, name + (" " + Suffix(stage)), start, delta, Field("cname", String(Colour(stage)), IdArgs(id)));
    hide FieldsHaveKey, Slice, Event;
  }

  lemma CallIsEvent(c: Config, name: string, threadId: uint64, start: uint64, delta: uint64, rest: Fields)
    requires !FieldsHaveKey("ph", rest)
    ensures All(IsEvent, [Event("X", c.pid, Int(threadId), Slice(name, start, delta, rest))])
  {
    hide IsEvent, Event, Slice, FieldsHaveKey;
    SliceIsEvent(c.pid, Int(threadId), name, start, delta, rest);
  }

  lemma CallEvents(c: Config, name: string, threadId: uint64, start: uint64, delta: uint64, id: uint64)
    ensures All(IsEvent, CallObjects(c, name, threadId, start, delta, id))
  {
    hide IsEvent, Event, Slice, FieldsHaveKey, Flow, IdArgs;
    IdArgsNoKind(id);
    SliceIsEvent(c.pid, Int(threadId), name, start, delta, IdArgs(id));
    FlowIsEvent("s", c.pid, Int(threadId), start, id);
  }

  lemma DeviceEvents(c: Config, tid: Value, name: string, start: uint64, end: uint64, id: uint64)
    requires !tid.Object?
    ensures All(IsEvent, DeviceObjects(c, tid, name, start, end, id))
  {
    hide IsEvent, Event, Slice, FieldsHaveKey, Flow, IdArgs, Minus;
    IdArgsNoKind(id);
    SliceIsEvent(c.pid, tid, name, start, Minus(end, start), IdArgs(id));
    FlowIsEvent("f", c.pid, tid, start, id);
  }

  lemma StageEvents(pid: uint64, tid: Value, name: string, queued: uint64, submit: uint64,
                    start: uint64, end: uint64, id: uint64)
    requires !tid.Object?
    ensures All(IsEvent, StageObjects(pid, tid, name, queued, submit, start, end, id))
  {
    hide IsEvent, StageObject, Minus;
    StageIsEvent(pid, tid, name, 0, queued, Minus(submit, queued), id);
    StageIsEvent(pid, tid, name, 1, submit, Minus(start, submit), id);
    StageIsEvent(pid, tid, name, 2, start, Minus(end, start), id);
  }

  lemma TimingEvents(c: Config, t: Timing)
    ensures All(IsEvent, TimingObjects(c, t))
  {
    IdArgsNoKind(0);
    hide IsEvent, All, Event, Slice, StageObjects, CallObjects, DeviceObjects, Tagged, FieldsHaveKey, Digits;
    match t
    case Call(name, threadId, start, delta) => CallIsEvent(c, name, threadId, start, delta, End);
    case CallTag(name, tag, threadId, start, delta) => CallIsEvent(c, Tagged(name, tag), threadId, start, delta, End);
    case CallId(name, threadId, start, delta, id) => CallEvents(c, name, threadId, start, delta, id);
    case CallTagId(name, tag, threadId, start, delta, id) => CallEvents(c, Tagged(name, tag), threadId, start, delta, id);
    case Device(name, queue, start, end, id) => DeviceEvents(c, Number(queue, "1"), name, start, end, id);
    case DevicePerKernel(name, start, end, id) => DeviceEvents(c, String(name), name, start, end, id);
    case Stages(name, count, queue, queued, submit, start, end, id) =>
      StageEvents(c.pid, Number(count, Digits(queue)), name, queued, submit, start, end, id);
    case StagesPerKernel(name, queued, submit, start, end, id) =>
      StageEvents(c.pid, String(name), name, queued, submit, start, end, id);
  }

  predicate IsMetaEvent(v: Value) { IsEvent(v) && v.fields.value == String("M") }

  lemma MetaEvents(c: Config, m: Meta)
    ensures All(IsMetaEvent, MetaObjects(c, m))
  {
    hide IsEvent, FieldsHaveKey, Digits, Args;
    match m
    case ProcessName(name) =>
      ArgsNoKind("name", String(name));
      MetaIsEvent("process_name", c.pid, Int(0), Args("name", String(name)));
    case ThreadName(threadId, number) =>
      var index := Digits((number + 10000) % TWO32);
      ArgsNoKind("name", String("Host Thread " + Digits(threadId)));
      ArgsNoKind("sort_index", String(index));
      MetaIsEvent("thread_name", c.pid, Int(threadId), Args("name", String("Host Thread " + Digits(threadId))));
      MetaIsEvent("thread_sort_index", c.pid, Int(threadId), Args("sort_index", String(index)));
    case StartTime(start) =>
      ArgsNoKind("start_time", Int(start));
      MetaIsEvent("clintercept_start_time", c.pid, Int(0), Args("start_time", Int(start)));
    case QueueName(queue, name) =>
      ArgsNoKind("name", String(name));
      ArgsNoKind("sort_index", String(Digits(queue)));
      MetaIsEvent("thread_name", c.pid, Number(queue, "1"), Args("name", String(name)));
      MetaIsEvent("thread_sort_index", c.pid, Number(queue, "1"), Args("sort_index", String(Digits(queue))));
  }

  lemma {:induction false} AllTimingEvents(c: Config, ts: seq<Timing>)
    ensures All(IsEvent, AllObjects(c, ts))
  {
    hide IsEvent, TimingObjects;
    if ts != [] {
      AllTimingEvents(c, ts[..|ts| - 1]);
      TimingEvents(c, ts[|ts| - 1]);
      AllAppend(IsEvent, AllObjects(c, ts[..|ts| - 1]), TimingObjects(c, ts[|ts| - 1]));
    }
  }

  lemma {:induction false} AllMetaEvents(c: Config, ops: seq<Op>)
    ensures All(IsMetaEvent, MetasOf(c, ops))
  {
    hide IsMetaEvent, MetaObjects;
    if ops != [] {
      var pre, op := ops[..|ops| - 1], ops[|ops| - 1];
      AllMetaEvents(c, pre);
      if op.AddMeta? {
        MetaEvents(c, op.meta);
        AllAppend(IsMetaEvent, MetasOf(c, pre), MetaObjects(c, op.meta));
      } else {
        AppendEmpty(MetasOf(c, pre));
      }
    }
  }

  lemma TraceEvents(t: Trace)
    ensures All(IsEvent, ObjectsOf(t))
  {
    hide IsEvent, Eof;
    var c, log := t.config, LogOf(t);
    BufferingInvisible(c, t.bufferSize, t.ops, true);
    BufferingInvisible(c, t.bufferSize, t.ops, false);
    AllTimingEvents(c, TimingsOf(t.ops));
    AllMetaEvents(c, t.ops);
    ByClass(IsEvent, true, log);
    ByClass(IsMetaEvent, false, log);
    EofIs(c);
    EofIsEvent(c);
    assert All(IsEvent, Objects(log));
    OneOrTwo(IsEvent, Eof(c), Eof(c));
    AllAppend(IsEvent, Objects(log), [Eof(c)]);
  }

  lemma EofIsEvent(c: Config)
    ensures IsEvent(Eof(c))
  {
    IdArgsNoKind(0);
    MetaIsEvent("clintercept_eof", c.pid, Int(0), End);
  }

  /** Of a trace's objects, in their order, exactly those are kept that are metadata or in whose line a filter occurs. */
  ghost predicate KeptMeans(filters: seq<string>, objects: seq<Value>, kept: seq<Value>)
    decreases |objects|
  {
    if objects == [] then kept == []
    else
      var n, v := |objects| - 1, objects[|objects| - 1];
      if filters == [] || (v.Object? && v.fields.Field? && v.fields.value == String("M"))
         || exists i :: 0 <= i < |filters| && Occurs(filters[i], Line(v))
      then kept != [] && kept[|kept| - 1] == v && KeptMeans(filters, objects[..n], kept[..|kept| - 1])
      else KeptMeans(filters, objects[..n], kept)
  }

  lemma {:induction false} ObjectsKept(filters: seq<string>, objects: seq<Value>)
    requires All(Clean, objects) && All(IsEvent, objects)
    ensures KeptMeans(filters, objects, KeptObjects(filters, objects))
  {
    hide Clean, Keep, Occurs, Line;
    if objects != [] {
      var n := |objects| - 1;
      ObjectsKept(filters, objects[..n]);
      EventKept(filters, objects[n]);
      KeptObjectsAppend(filters, objects[..n], [objects[n]]);
      assert objects[..n] + [objects[n]] == objects;
      AppendEmpty(KeptObjects(filters, objects[..n]));
    }
  }

  /** What the filters keep of a closed trace with plain names. */
  lemma TraceFiltered(filters: seq<string>, t: Trace)
    requires PlainTrace(t)
    ensures KeptMeans(filters, ObjectsOf(t), KeptObjects(filters, ObjectsOf(t)))
  {
    hide PlainTrace, Clean, IsEvent, KeptMeans, KeptObjects, ObjectsOf;
    TraceObjects(t);
    TraceEvents(t);
    ObjectsKept(filters, ObjectsOf(t));
  }
}
