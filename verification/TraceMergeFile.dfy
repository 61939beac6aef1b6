/** The merging script on the closed files of whole runs of the tracer. */
module TraceMergeFile {
  import opened Text
  import opened Words
  import opened Trimming
  import opened Json
  import opened Micros
  import opened ChromeTrace
  import opened TraceFormats
  import opened TraceFile
  import opened TraceMerge
  import opened TraceMergeText
  import opened TraceMergeLine

  // ---- The objects a tracer writes, as the script sees them ----

  lemma IdArgsNoTime(id: uint64)
    ensures !FieldsHaveKey("ts", IdArgs(id))
  {
    assert !FieldsHaveKey("ts", Field("id", Int(id), End));
    assert !HasKey("ts", IdArgs(id).value);
  }

  lemma EventTimed(ph: string, pid: uint64, tid: Value, rest: Fields)
    requires !tid.Object?
    ensures Timed(Event(ph, pid, tid, rest)) <==> OneTime(rest)
  {
    var f := Field("tid", tid, rest);
    assert OneTime(f) <==> OneTime(rest);
    var g := Field("pid", Int(pid), f);
    assert OneTime(g) <==> OneTime(f);
  }

  lemma SliceTimed(name: string, start: uint64, delta: uint64, rest: Fields)
    requires !FieldsHaveKey("ts", rest)
    ensures OneTime(Slice(name, start, delta, rest))
  {
    var dur := Field("dur", Micro(delta), rest);
    assert !FieldsHaveKey("ts", dur);
    assert OneTime(Field("ts", Micro(start), dur));
  }

  lemma FlowTimed(ph: string, pid: uint64, tid: Value, start: uint64, id: uint64)
    requires !tid.Object?
    ensures Timed(Flow(ph, pid, tid, start, id))
  {
    var rest := Field("id", Int(id), End);
    assert !FieldsHaveKey("ts", rest);
    var ts := Field("ts", Micro(start), rest);
    assert OneTime(ts);
    var cat := Field("cat", String("Commands"), ts);
    assert OneTime(cat);
    EventTimed(ph, pid, tid, Field("name", String("Command"), cat));
  }

  lemma CallTimed(pid: uint64, tid: Value, name: string, start: uint64, delta: uint64, rest: Fields)
    requires !tid.Object? && !FieldsHaveKey("ts", rest)
    ensures Timed(Event("X", pid, tid, Slice(name, start, delta, rest)))
  {
    hide Event, Slice;
    SliceTimed(name, start, delta, rest);
    EventTimed("X", pid, tid, Slice(name, start, delta, rest));
  }

  lemma StageTimed(pid: uint64, tid: Value, name: string, stage: nat, start: uint64, delta: uint64, id: uint64)
    requires !tid.Object?
    ensures Timed(StageObject(pid, tid, name, stage, start, delta, id))
  {
    hide Event, Slice, IdArgs;
    IdArgsNoTime(id);
    var cname := Field("cname", String(Colour(stage)), IdArgs(id));
    assert !FieldsHaveKey("ts", cname);
    CallTimed(pid, tid, name + (" " + Suffix(stage)), start, delta, cname);
  }

  predicate All(p: Value -> bool, objects: seq<Value>) { forall i :: 0 <= i < |objects| ==> p(objects[i]) }

  lemma AllAppend(p: Value -> bool, a: seq<Value>, b: seq<Value>)
    ensures All(p, a + b) <==> All(p, a) && All(p, b)
  {
    assert forall i :: 0 <= i < |a| ==> (a + b)[i] == a[i];
    assert forall i :: 0 <= i < |b| ==> (a + b)[|a| + i] == b[i];
  }

  /** Every timing object has exactly one time, followed by another field. */
  lemma TimingTimed(c: Config, t: Timing)
    ensures All(Timed, TimingObjects(c, t))
  {
    hide Timed, Event, Slice, IdArgs, StageObject, Flow, Tagged, HasKey;
    assert !FieldsHaveKey("ts", End);
    match t
    case Call(name, threadId, start, delta) =>
      CallTimed(c.pid, Int(threadId), name, start, delta, End);
    case CallTag(name, tag, threadId, start, delta) =>
      CallTimed(c.pid, Int(threadId), Tagged(name, tag), start, delta, End);
    case CallId(name, threadId, start, delta, id) =>
      IdArgsNoTime(id);
      CallTimed(c.pid, Int(threadId), name, start, delta, IdArgs(id));
      FlowTimed("s", c.pid, Int(threadId), start, id);
    case CallTagId(name, tag, threadId, start, delta, id) =>
      IdArgsNoTime(id);
      CallTimed(c.pid, Int(threadId), Tagged(name, tag), start, delta, IdArgs(id));
      FlowTimed("s", c.pid, Int(threadId), start, id);
    case Device(name, queue, start, end, id) =>
      IdArgsNoTime(id);
      CallTimed(c.pid, Number(queue, "1"), name, start, Minus(end, start), IdArgs(id));
      FlowTimed("f", c.pid, Number(queue, "1"), start, id);
    case DevicePerKernel(name, start, end, id) =>
      IdArgsNoTime(id);
      CallTimed(c.pid, String(name), name, start, Minus(end, start), IdArgs(id));
      FlowTimed("f", c.pid, String(name), start, id);
    case Stages(name, count, queue, queued, submit, start, end, id) =>
      StageTimed(c.pid, Number(count, Digits(queue)), name, 0, queued, Minus(submit, queued), id);
      StageTimed(c.pid, Number(count, Digits(queue)), name, 1, submit, Minus(start, submit), id);
      StageTimed(c.pid, Number(count, Digits(queue)), name, 2, start, Minus(end, start), id);
    case StagesPerKernel(name, queued, submit, start, end, id) =>
      StageTimed(c.pid, String(name), name, 0, queued, Minus(submit, queued), id);
      StageTimed(c.pid, String(name), name, 1, submit, Minus(start, submit), id);
      StageTimed(c.pid, String(name), name, 2, start, Minus(end, start), id);
  }

  /** A process or a queue named like the key for times. */
  predicate NamedTs(m: Meta) {
    match m
    case ProcessName(name) => name == "ts"
    case QueueName(_, name) => name == "ts"
    case _ => false
  }

  lemma MetaEventUntimed(name: string, pid: uint64, tid: Value, key: string, value: Value)
    requires !tid.Object? && !value.Object? && key != "ts" && (key == "start_time" ==> value.Number? && value.fraction == "")
    ensures Untimed(MetaEvent(name, pid, tid, Args(key, value)))
    ensures Quiet(MetaEvent(name, pid, tid, Args(key, value))) <==> name != "ts" && tid != String("ts") && value != String("ts")
  {
    var inner := Field(key, value, End);
    assert !FieldsHaveKey("ts", inner) && FieldsFit(StartPattern, inner);
    assert FieldsHaveString("ts", inner) <==> value == String("ts");
    var args := Args(key, value);
    assert !HasKey("ts", args.value) && Fits(StartPattern, args.value);
    assert !FieldsHaveKey("ts", args) && FieldsFit(StartPattern, args);
    assert FieldsHaveString("ts", args) <==> HasString("ts", args.value);
    UntimedAfterPid(name, pid, tid, args);
  }

  /** The fields before the arguments have no times. */
  lemma UntimedAfterPid(name: string, pid: uint64, tid: Value, rest: Fields)
    requires !tid.Object? && !FieldsHaveKey("ts", rest) && FieldsFit(StartPattern, rest)
    ensures Untimed(MetaEvent(name, pid, tid, rest))
    ensures Quiet(MetaEvent(name, pid, tid, rest))
            <==> name != "ts" && tid != String("ts") && !FieldsHaveString("ts", rest)
  {
    NoTimeIn("tid", tid, rest);
    NoTimeIn("pid", Int(pid), Field("tid", tid, rest));
    NoTimeIn("name", String(name), Field("pid", Int(pid), Field("tid", tid, rest)));
    NoTimeIn("ph", String("M"), MetaEvent(name, pid, tid, rest).fields.rest);
    hide FieldsHaveKey, FieldsFit, FieldsHaveString;
  }

  lemma NoTimeIn(key: string, value: Value, rest: Fields)
    requires !value.Object? && key != "ts" && key != "start_time" && !FieldsHaveKey("ts", rest) && FieldsFit(StartPattern, rest)
    ensures var f := Field(key, value, rest);
            && !FieldsHaveKey("ts", f) && FieldsFit(StartPattern, f)
            && (FieldsHaveString("ts", f) <==> value == String("ts") || FieldsHaveString("ts", rest))
  {
  }

  lemma DigitsNotTs(n: nat)
    ensures Digits(n) != "ts"
  {
    assert IsDigit(Digits(n)[0]);
  }

  lemma OneOrTwo(p: Value -> bool, a: Value, b: Value)
    ensures All(p, [a]) <==> p(a)
    ensures All(p, [a, b]) <==> p(a) && p(b)
  {
    assert [a][0] == a && [a, b][0] == a && [a, b][1] == b;
  }

  /** No metadata object has a time, and only a process's or a queue's name can be taken for one. */
  lemma MetaUntimed(c: Config, m: Meta)
    ensures All(Untimed, MetaObjects(c, m)) && (All(Quiet, MetaObjects(c, m)) <==> !NamedTs(m))
  {
    hide Untimed, Quiet, MetaEvent, Args, Digits, All;
    match m
    case ProcessName(name) =>
      var v := MetaEvent("process_name", c.pid, Int(0), Args("name", String(name)));
      MetaEventUntimed("process_name", c.pid, Int(0), "name", String(name));
      OneOrTwo(Untimed, v, v);
      OneOrTwo(Quiet, v, v);
    case ThreadName(threadId, number) =>
      var title, index := "Host Thread " + Digits(threadId), Digits((number + 10000) % TWO32);
      var v := MetaEvent("thread_name", c.pid, Int(threadId), Args("name", String(title)));
      var w := MetaEvent("thread_sort_index", c.pid, Int(threadId), Args("sort_index", String(index)));
      assert title[0] == 'H';
      DigitsNotTs((number + 10000) % TWO32);
      MetaEventUntimed("thread_name", c.pid, Int(threadId), "name", String(title));
      MetaEventUntimed("thread_sort_index", c.pid, Int(threadId), "sort_index", String(index));
      OneOrTwo(Untimed, v, w);
      OneOrTwo(Quiet, v, w);
    case StartTime(start) =>
      var v := MetaEvent("clintercept_start_time", c.pid, Int(0), Args("start_time", Int(start)));
      MetaEventUntimed("clintercept_start_time", c.pid, Int(0), "start_time", Int(start));
      OneOrTwo(Untimed, v, v);
      OneOrTwo(Quiet, v, v);
    case QueueName(queue, name) =>
      var v := MetaEvent("thread_name", c.pid, Number(queue, "1"), Args("name", String(name)));
      var w := MetaEvent("thread_sort_index", c.pid, Number(queue, "1"), Args("sort_index", String(Digits(queue))));
      DigitsNotTs(queue);
      MetaEventUntimed("thread_name", c.pid, Number(queue, "1"), "name", String(name));
      MetaEventUntimed("thread_sort_index", c.pid, Number(queue, "1"), "sort_index", String(Digits(queue)));
      OneOrTwo(Untimed, v, w);
      OneOrTwo(Quiet, v, w);
  }

  lemma EofUntimed(c: Config)
    ensures Untimed(Eof(c)) && Quiet(Eof(c)) && Clean(Eof(c))
  {
    EofClean(c);
    UntimedAfterPid("clintercept_eof", c.pid, Int(0), End);
  }

  // ---- The whole log ----

  lemma {:induction false} AllTimed(c: Config, ts: seq<Timing>)
    ensures All(Timed, AllObjects(c, ts))
  {
    hide Timed, TimingObjects;
    if ts != [] {
      AllTimed(c, ts[..|ts| - 1]);
      TimingTimed(c, ts[|ts| - 1]);
      AllAppend(Timed, AllObjects(c, ts[..|ts| - 1]), TimingObjects(c, ts[|ts| - 1]));
    }
  }

  /** No process or queue was named like the key for times. */
  predicate NoneNamedTs(ops: seq<Op>) { forall i :: 0 <= i < |ops| && ops[i].AddMeta? ==> !NamedTs(ops[i].meta) }

  lemma {:induction false} AllUntimed(c: Config, ops: seq<Op>)
    ensures All(Untimed, MetasOf(c, ops)) && (All(Quiet, MetasOf(c, ops)) <==> NoneNamedTs(ops))
  {
    hide Untimed, Quiet, MetaObjects, NamedTs;
    if ops != [] {
      var pre, op := ops[..|ops| - 1], ops[|ops| - 1];
      AllUntimed(c, pre);
      assert forall i :: 0 <= i < |pre| ==> pre[i] == ops[i];
      if op.AddMeta? {
        MetaUntimed(c, op.meta);
        AllAppend(Untimed, MetasOf(c, pre), MetaObjects(c, op.meta));
        AllAppend(Quiet, MetasOf(c, pre), MetaObjects(c, op.meta));
      } else {
        AppendEmpty(MetasOf(c, pre));
      }
    }
  }

  lemma {:induction false} ByClass(p: Value -> bool, timing: bool, log: seq<Entry>)
    ensures All(p, Select(timing, log)) <==> forall i :: 0 <= i < |log| && log[i].timing == timing ==> p(log[i].event)
  {
    if log != [] {
      var pre, e := log[..|log| - 1], log[|log| - 1];
      ByClass(p, timing, pre);
      AllAppend(p, Select(timing, pre), [e.event]);
      OneOrTwo(p, e.event, e.event);
      AppendEmpty(Select(timing, pre));
      assert forall i :: 0 <= i < |pre| ==> pre[i] == log[i];
    }
  }

  /** A closed trace. */
  datatype Trace = Trace(config: Config, bufferSize: uint32, ops: seq<Op>)

  function LogOf(t: Trace): seq<Entry> { Close(Run(t.config, t.bufferSize, t.ops)).log }

  function ObjectsOf(t: Trace): seq<Value> { Objects(LogOf(t)) + [Eof(t.config)] }

  function TextOf(t: Trace): string { FileText(t.config, LogOf(t)) }

  predicate PlainTrace(t: Trace) { forall i :: 0 <= i < |t.ops| ==> PlainOp(t.ops[i]) }

  /** What the script can rewrite, or that it fails on. */
  predicate Known(v: Value) { Clean(v) && (Timed(v) || Untimed(v)) }

  predicate Mergeable(v: Value) { Timed(v) || Quiet(v) }

  lemma TraceObjects(t: Trace)
    requires PlainTrace(t)
    ensures All(Known, ObjectsOf(t)) && (All(Mergeable, ObjectsOf(t)) <==> NoneNamedTs(t.ops))
  {
    hide PlainOp, Clean, Timed, Untimed, Quiet, NoneNamedTs, Eof;
    var c, log := t.config, LogOf(t);
    CleanLog(c, t.bufferSize, t.ops);
    BufferingInvisible(c, t.bufferSize, t.ops, true);
    BufferingInvisible(c, t.bufferSize, t.ops, false);
    AllTimed(c, TimingsOf(t.ops));
    AllUntimed(c, t.ops);
    ByClass(Timed, true, log);
    ByClass(Untimed, false, log);
    ByClass(Quiet, false, log);
    EofUntimed(c);
    LogMergeable(c, log);
  }

  lemma LogMergeable(c: Config, log: seq<Entry>)
    requires forall i :: 0 <= i < |log| ==>
               Clean(log[i].event) && (if log[i].timing then Timed(log[i].event) else Untimed(log[i].event))
    requires Clean(Eof(c)) && Untimed(Eof(c)) && Quiet(Eof(c))
    ensures var objects := Objects(log) + [Eof(c)];
            && All(Known, objects)
            && (All(Mergeable, objects) <==> forall i :: 0 <= i < |log| && !log[i].timing ==> Quiet(log[i].event))
  {
    var objects := Objects(log) + [Eof(c)];
    forall i | 0 <= i < |log|
      ensures objects[i] == log[i].event && (!log[i].timing ==> !Timed(log[i].event))
    {
      if !log[i].timing {
        NotTimed(log[i].event);
      }
    }
    hide Clean, Timed, Untimed, Quiet, Eof;
    assert objects[|log|] == Eof(c);
  }

  lemma CleanLog(c: Config, bufferSize: uint32, ops: seq<Op>)
    requires forall i :: 0 <= i < |ops| ==> PlainOp(ops[i])
    ensures var log := Close(Run(c, bufferSize, ops)).log;
            forall i :: 0 <= i < |log| ==> Clean(log[i].event)
  {
    hide PlainOp, Clean;
    CleanByClass(Close(Run(c, bufferSize, ops)).log);
    BufferingInvisible(c, bufferSize, ops, true);
    BufferingInvisible(c, bufferSize, ops, false);
    CleanCalls(c, ops);
  }

  // ---- The lines of a trace ----

  function LinesOf(objects: seq<Value>): seq<string> {
    seq(|objects|, i requires 0 <= i < |objects| => Line(objects[i]))
  }

  lemma {:induction false} NoNewline(v: Value, tail: string)
    requires Clean(v) && '\n' !in tail
    ensures '\n' !in Print(v, tail)
    decreases v
  {
    hide NumberText;
    match v
    case Number(_, _) =>
      PrintNumber(v, tail);
      NumberHasNoQuote(v);
    case String(text) =>
      PlainHasNoQuote(text);
    case Object(fields) =>
      NoNewlineInFields(fields, tail);
  }

  lemma {:induction false} NoNewlineInFields(fields: Fields, tail: string)
    requires CleanFields(fields) && '\n' !in tail
    ensures '\n' !in PrintFields(fields, tail)
    decreases fields
  {
    hide Print;
    if fields.Field? {
      PrintField(fields.key, fields.value, fields.rest, tail);
      PlainHasNoQuote(fields.key);
      NoNewlineInFields(fields.rest, tail);
      NoNewline(fields.value, After(fields.rest, tail));
    }
  }

  lemma {:induction false} LineLengthOf(line: string, rest: string)
    requires '\n' !in line
    ensures LineLength(line + ("\n" + rest)) == |line| + 1
  {
    if line == "" {
      assert line + ("\n" + rest) == "\n" + rest;
    } else {
      assert forall c :: c in line[1..] ==> c in line;
      LineLengthOf(line[1..], rest);
      assert (line + ("\n" + rest))[1..] == line[1..] + ("\n" + rest) && line[0] in line;
    }
  }

  lemma ReadOneLine(line: string, rest: string)
    requires '\n' !in line
    ensures ReadLines((line + "\n") + rest) == [line + "\n"] + ReadLines(rest)
  {
    hide LineLength;
    LineLengthOf(line, rest);
    var s := (line + "\n") + rest;
    assert s == line + ("\n" + rest);
    assert s[..|line| + 1] == line + "\n" && s[|line| + 1..] == rest;
  }

  /** The text of an object, its comma, and its newline. */
  lemma LineParts(v: Value)
    requires Clean(v)
    ensures Line(v) == Print(v, ",") + "\n" && Print(v, ",") == Print(v, "") + "," && '\n' !in Print(v, ",")
  {
    hide Print, Clean;
    PrintAppend(v, ",", "\n");
    PrintAppend(v, "", ",");
    assert "," + "\n" == ",\n" && "" + "," == ",";
    NoNewline(v, ",");
  }

  lemma {:induction false} ReadObjectLines(objects: seq<Value>, rest: string)
    requires All(Clean, objects)
    ensures ReadLines(FlatMap(Line, objects) + rest) == LinesOf(objects) + ReadLines(rest)
  {
    hide Clean, Print, Line, ReadLines;
    if objects == [] {
      assert "" + rest == rest;
    } else {
      var v, more := objects[0], objects[1..];
      ReadObjectLines(more, rest);
      LineParts(v);
      ReadOneLine(Print(v, ","), FlatMap(Line, more) + rest);
      Regroup(Line(v), FlatMap(Line, more), rest);
      assert LinesOf(objects) == [Line(v)] + LinesOf(more);
      Regroup([Line(v)], LinesOf(more), ReadLines(rest));
    }
  }

  /** The lines of a closed trace: a bracket, a line per object, the last object without a comma, and a bracket. */
  lemma ReadTraceLines(c: Config, log: seq<Entry>)
    requires All(Clean, Objects(log))
    ensures ReadLines(FileText(c, log)) == ["[\n"] + (LinesOf(Objects(log)) + [Print(Eof(c), "\n"), "]\n"])
  {
    hide Clean, Print, Eof, ReadLines, LinesOf;
    var eof := Print(Eof(c), "");
    var last := Print(Eof(c), "\n]\n");
    EofClean(c);
    NoNewline(Eof(c), "");
    PrintAppend(Eof(c), "", "\n]\n");
    PrintAppend(Eof(c), "", "\n");
    assert "" + "\n]\n" == "\n]\n" && "" + "\n" == "\n";
    EofLines(eof);
    ReadObjectLines(Objects(log), last);
    ReadOneLine("[", Lines(log) + last);
    assert "[" + "\n" == "[\n";
  }

  lemma EofLines(eof: string)
    requires '\n' !in eof
    ensures ReadLines(eof + "\n]\n") == [eof + "\n", "]\n"]
  {
    hide ReadLines;
    ReadOneLine("]", "");
    ReadOneLine(eof, "]\n");
    ReadNothing();
    assert "]" + "\n" == "]\n" && "]\n" + "" == "]\n" && (eof + "\n") + "]\n" == eof + "\n]\n";
  }

  lemma ReadNothing()
    ensures ReadLines("") == []
  {
  }

  // ---- Filtering ----

  /** The objects whose lines pass the filter. */
  function KeptObjects(filters: seq<string>, objects: seq<Value>): seq<Value> {
    if objects == [] then []
    else
      var last := objects[|objects| - 1];
      KeptObjects(filters, objects[..|objects| - 1]) + (if Keep(filters, Line(last)) then [last] else [])
  }

  lemma {:induction false} AllKept(p: Value -> bool, filters: seq<string>, objects: seq<Value>)
    requires All(p, objects)
    ensures All(p, KeptObjects(filters, objects))
  {
    hide Keep;
    if objects != [] {
      AllKept(p, filters, objects[..|objects| - 1]);
    }
  }

  lemma LineFixed(v: Value)
    requires Clean(v)
    ensures Fixup(Line(v)) == Line(v)
  {
    hide Print, Clean, FirstNotBlank, PastLastNotBlank;
    LineParts(v);
    var text := Print(v, ",");
    assert text[|text| - 1] == ',';
    TrimmedEnd(text, "\n");
  }

  /** Trimming keeps a last character that is not a space, and only loses what follows it. */
  lemma TrimmedEnd(text: string, space: string)
    requires text != "" && !IsSpace(text[|text| - 1]) && Blanks(IsSpace, space)
    ensures var t := Trim(IsSpace, text + space);
            t != "" && t[|t| - 1] == text[|text| - 1] && (!IsSpace(text[0]) ==> t == text)
  {
    hide FirstNotBlank, PastLastNotBlank, IsSpace;
    assert Blanks(IsSpace, "");
    NotAllSpace(text);
    LastIsLast(text);
    FirstBeforeLast(IsSpace, text);
    FirstIsFirst(text);
    TrimPadded(IsSpace, "", text, space);
    assert "" + (text + space) == text + space;
    TrimmedIs(text);
  }

  lemma TrimmedIs(text: string)
    requires FirstNotBlank(IsSpace, text) < |text| == PastLastNotBlank(IsSpace, text)
    ensures Trim(IsSpace, text) == text[FirstNotBlank(IsSpace, text)..]
  {
    hide FirstNotBlank, PastLastNotBlank, IsSpace;
  }

  lemma FirstIsFirst(text: string)
    requires text != ""
    ensures !IsSpace(text[0]) ==> FirstNotBlank(IsSpace, text) == 0
  {
    hide IsSpace;
  }

  lemma LastIsLast(text: string)
    requires text != "" && !IsSpace(text[|text| - 1])
    ensures PastLastNotBlank(IsSpace, text) == |text|
  {
    hide IsSpace;
  }

  lemma {:induction false} NotAllSpace(text: string)
    requires text != "" && !IsSpace(text[|text| - 1])
    ensures FirstNotBlank(IsSpace, text) < |text|
  {
    hide IsSpace;
    if IsSpace(text[0]) {
      NotAllSpace(text[1..]);
    }
  }

  /** The last object's line gets the comma that the others have. */
  lemma EofFixed(c: Config)
    ensures Fixup(Print(Eof(c), "\n")) == Line(Eof(c))
  {
    hide Print, Clean, Eof, FirstNotBlank, PastLastNotBlank;
    EofClean(c);
    LineParts(Eof(c));
    var text := Print(Eof(c), "");
    PrintAppend(Eof(c), "", "\n");
    assert "" + "\n" == "\n";
    EofEnds(c);
    TrimmedEnd(text, "\n");
    assert (text + ",") + "\n" == text + ",\n";
  }

  lemma EofEnds(c: Config)
    ensures var text := Print(Eof(c), ""); text != "" && text[0] == '{' && text[|text| - 1] == '}'
  {
    FieldsEnd(Eof(c).fields);
    hide PrintFields;
  }

  lemma {:induction false} FieldsEnd(fields: Fields)
    ensures var text := PrintFields(fields, ""); text != "" && text[|text| - 1] == '}'
  {
    if fields.Field? {
      hide Print, PrintFields;
      FieldsEnd(fields.rest);
      var after := After(fields.rest, "");
      AfterEnds(fields.rest);
      PrintField(fields.key, fields.value, fields.rest, "");
      PrintAppend(fields.value, "", after);
      assert "" + after == after;
      hide After, Key;
      Regroup(Key(fields.key), Print(fields.value, ""), after);
      SameEnd(Key(fields.key) + Print(fields.value, ""), after);
    }
  }

  lemma AfterEnds(rest: Fields)
    requires rest.Field? ==> PrintFields(rest, "") != "" && PrintFields(rest, "")[|PrintFields(rest, "")| - 1] == '}'
    ensures After(rest, "") != "" && After(rest, "")[|After(rest, "")| - 1] == '}'
  {
    hide PrintFields;
  }

  lemma SameEnd(a: string, b: string)
    requires b != ""
    ensures (a + b)[|a + b| - 1] == b[|b| - 1]
  {
  }

  /** Metadata always passes the filter. */
  lemma MetaKept(filters: seq<string>, line: string)
    requires |line| > 9 && "{\"ph\":\"M\"" <= line
    ensures Keep(filters, line)
  {
    hide Contains;
    FoundAtOne(line, "\"ph\":");
    FoundAtOne(line, "\"ph\":\"M\"");
  }

  lemma FoundAtOne(line: string, part: string)
    requires |line| > |part| && part <= line[1..]
    ensures Contains(line, part)
  {
    assert Contains(line[1..], part);
  }

  lemma MetadataKept(filters: seq<string>, v: Value, tail: string)
    requires IsMetadata(v)
    ensures Keep(filters, Print(v, tail))
  {
    hide Keep, PrintFields;
    var more := v.fields.rest;
    PrintField("ph", String("M"), more, tail);
    var line := Print(v, tail);
    assert line == "{" + (Key("ph") + ("\"" + ("M" + ("\"" + After(more, tail)))));
    assert line == "{\"ph\":\"M\"" + After(more, tail);
    MetaKept(filters, line);
  }

  lemma {:induction false} KeptAppend(filters: seq<string>, a: seq<string>, b: seq<string>)
    ensures Kept(filters, a + b) == Kept(filters, a) + Kept(filters, b)
  {
    hide Keep, Fixup;
    if b == [] {
      assert a + b == a;
    } else {
      var n := |b| - 1;
      KeptAppend(filters, a, b[..n]);
      assert (a + b)[..|a| + n] == a + b[..n] && (a + b)[|a| + n] == b[n];
    }
  }

  lemma {:induction false} KeptLines(filters: seq<string>, objects: seq<Value>)
    requires All(Clean, objects)
    ensures Kept(filters, LinesOf(objects)) == LinesOf(KeptObjects(filters, objects))
  {
    hide Keep, Fixup, Clean, Line;
    if objects != [] {
      var n := |objects| - 1;
      KeptLines(filters, objects[..n]);
      LineFixed(objects[n]);
      assert LinesOf(objects)[..n] == LinesOf(objects[..n]);
    }
  }

  lemma BracketsDropped(filters: seq<string>)
    ensures Kept(filters, ["[\n"]) == [] && Kept(filters, ["]\n"]) == []
  {
    NotFoundIn("[\n", "", "\"ph\":");
    NotFoundIn("]\n", "", "\"ph\":");
    assert "[\n" + "" == "[\n" && "]\n" + "" == "]\n";
    hide Contains, Fixup;
    assert ["[\n"][..0] == [] && ["]\n"][..0] == [];
  }

  lemma KeptOne(filters: seq<string>, line: string)
    requires Keep(filters, line)
    ensures Kept(filters, [line]) == [Fixup(line)]
  {
    hide Keep, Fixup;
    assert [line][..0] == [];
  }

  /** What the filter leaves of a trace: the lines of the kept objects, the last of them with a comma as well. */
  lemma TraceKept(filters: seq<string>, c: Config, log: seq<Entry>)
    requires All(Clean, Objects(log))
    ensures Kept(filters, ReadLines(FileText(c, log))) == LinesOf(KeptObjects(filters, Objects(log) + [Eof(c)]))
  {
    hide Keep, Fixup, Clean, Print, Kept, ReadLines, FileText, KeptObjects;
    var objects, eof := Objects(log), Print(Eof(c), "\n");
    ReadTraceLines(c, log);
    BracketsDropped(filters);
    EofIs(c);
    MetadataKept(filters, Eof(c), "\n");
    KeptOne(filters, eof);
    EofFixed(c);
    KeptAppend(filters, ["[\n"], LinesOf(objects) + [eof, "]\n"]);
    KeptAppend(filters, LinesOf(objects), [eof, "]\n"]);
    KeptAppend(filters, [eof], ["]\n"]);
    assert [eof] + ["]\n"] == [eof, "]\n"];
    KeptLines(filters, objects);
    KeptEof(filters, c, objects);
  }

  lemma KeptEof(filters: seq<string>, c: Config, objects: seq<Value>)
    ensures LinesOf(KeptObjects(filters, objects + [Eof(c)])) == LinesOf(KeptObjects(filters, objects)) + [Line(Eof(c))]
  {
    hide Keep, Eof, Print;
    EofIs(c);
    MetadataKept(filters, Eof(c), ",\n");
    assert (objects + [Eof(c)])[..|objects|] == objects;
  }

  lemma EofIs(c: Config)
    ensures Eof(c) == MetaEvent("clintercept_eof", c.pid, Int(0), End) && IsMetadata(Eof(c))
  {
  }
}
