/** The file that merging the closed traces of several runs gives: when there is one, and what is in it. */
module MergedTrace {
  import opened Text
  import opened Words
  import opened Trimming
  import opened Json
  import opened ChromeTrace
  import opened TraceLines
  import opened TraceFormats
  import opened TraceMeaning
  import opened TraceFile
  import opened TraceMerge
  import opened TraceMergeText
  import opened TraceMergeLine
  import opened TraceMergeFile

  // ---- One trace ----

  function RebasedObjects(objects: seq<Value>, offset: nat, epoch: nat): seq<Value> {
    seq(|objects|, i requires 0 <= i < |objects| => Rebased(objects[i], offset, epoch))
  }

  lemma KnownLine(v: Value, offset: nat, epoch: nat)
    requires Known(v)
    ensures Rebase(Line(v), offset, epoch) == if Mergeable(v) then Some(Line(Rebased(v, offset, epoch))) else None
  {
    hide Rebase, Line, Clean, Rebased, Untimed, Quiet, Timed;
    if Timed(v) {
      TimedLine(v, offset, epoch);
    } else {
      UntimedLine(v, offset, epoch);
    }
  }

  /** The lines of known objects are all rewritten, unless one of them is taken to hold a time that it does not. */
  lemma {:induction false} KnownLines(objects: seq<Value>, offset: nat, epoch: nat)
    requires All(Known, objects)
    ensures RebaseAll(LinesOf(objects), offset, epoch)
         == if All(Mergeable, objects) then Some(LinesOf(RebasedObjects(objects, offset, epoch))) else None
  {
    hide Rebase, Line, Known, Mergeable, Rebased;
    if objects != [] {
      var n := |objects| - 1;
      KnownLines(objects[..n], offset, epoch);
      KnownLine(objects[n], offset, epoch);
      assert LinesOf(objects)[..n] == LinesOf(objects[..n]);
      OneMoreMergeable(objects);
      assert LinesOf(RebasedObjects(objects, offset, epoch))
          == LinesOf(RebasedObjects(objects[..n], offset, epoch)) + [Line(Rebased(objects[n], offset, epoch))];
    }
  }

  lemma OneMoreMergeable(objects: seq<Value>)
    requires objects != []
    ensures All(Mergeable, objects) <==> All(Mergeable, objects[..|objects| - 1]) && Mergeable(objects[|objects| - 1])
  {
    hide Mergeable;
    var pre := objects[..|objects| - 1];
    assert forall i :: 0 <= i < |pre| ==> pre[i] == objects[i];
  }

  /** No filter drops what the script fails on: it is metadata. */
  lemma {:induction false} KeptMergeable(filters: seq<string>, objects: seq<Value>)
    requires All(Known, objects)
    ensures All(Mergeable, KeptObjects(filters, objects)) <==> All(Mergeable, objects)
  {
    hide Keep, Line, Clean, Timed, Quiet;
    if objects != [] {
      var pre, last := objects[..|objects| - 1], objects[|objects| - 1];
      KeptMergeable(filters, pre);
      OneMoreMergeable(objects);
      if Keep(filters, Line(last)) {
        assert KeptObjects(filters, objects)[..|KeptObjects(filters, pre)|] == KeptObjects(filters, pre);
        OneMoreMergeable(KeptObjects(filters, objects));
      } else if !Timed(last) {
        UntimedKept(filters, last);
      }
    }
  }

  lemma UntimedKept(filters: seq<string>, v: Value)
    requires Untimed(v)
    ensures Keep(filters, Line(v))
  {
    MetadataKept(filters, v, ",\n");
  }

  lemma KnownIsClean(objects: seq<Value>)
    requires All(Known, objects)
    ensures All(Clean, objects)
  {
  }

  /** What the script makes of one closed trace. */
  lemma TraceRebased(filters: seq<string>, t: Trace, offset: nat, epoch: nat)
    requires PlainTrace(t)
    ensures var kept := KeptObjects(filters, ObjectsOf(t));
            && All(Clean, kept)
            && RebaseAll(Kept(filters, ReadLines(TextOf(t))), offset, epoch)
               == if NoneNamedTs(t.ops) then Some(LinesOf(RebasedObjects(kept, offset, epoch))) else None
  {
    hide PlainOp, Known, Mergeable, Rebased, Rebase, RebaseAll, ReadLines, Kept, FileText, KeptObjects, LinesOf,
         NoneNamedTs, Eof;
    var objects := ObjectsOf(t);
    TraceObjects(t);
    KnownIsClean(objects);
    assert All(Clean, Objects(LogOf(t))) by {
      AllAppend(Clean, Objects(LogOf(t)), [Eof(t.config)]);
    }
    TraceKept(filters, t.config, LogOf(t));
    AllKept(Known, filters, objects);
    KnownIsClean(KeptObjects(filters, objects));
    KeptMergeable(filters, objects);
    KnownLines(KeptObjects(filters, objects), offset, epoch);
  }

  // ---- Start times ----

  /** A trace that begins as the interceptor begins it: the process's name, and then its start time. */
  predicate Opened(t: Trace, start: uint64) {
    && |t.ops| >= 2 && t.ops[0].AddMeta? && t.ops[0].meta.ProcessName?
    && t.ops[1] == AddMeta(StartTime(start))
  }

  function ProcessObject(c: Config, name: string): Value {
    MetaEvent("process_name", c.pid, Int(0), Args("name", String(name)))
  }

  function StartObject(c: Config, start: uint64): Value {
    MetaEvent("clintercept_start_time", c.pid, Int(0), Args("start_time", Int(start)))
  }

  /** A rewritten start object names the epoch and is otherwise as it was. */
  lemma StartNamesEpoch(c: Config, start: uint64, offset: nat, epoch: uint64)
    ensures Rebase(Line(StartObject(c, start)), offset, epoch) == Some(Line(StartObject(c, epoch)))
  {
    hide Rebase, Line, Clean;
    var v := StartObject(c, start);
    MetaEventUntimed("clintercept_start_time", c.pid, Int(0), "start_time", Int(start));
    StartClean(c, start);
    UntimedLine(v, offset, epoch);
    NotTimed(v);
    StartSet(c, start, Number(epoch, ""));
  }

  lemma StartClean(c: Config, start: uint64)
    ensures Clean(StartObject(c, start))
  {
    CleanMeta(c, StartTime(start));
    CleanOne(StartObject(c, start));
  }

  lemma StartSet(c: Config, start: uint64, n: Value)
    ensures SetIn("start_time", n, StartObject(c, start))
         == MetaEvent("clintercept_start_time", c.pid, Int(0), Args("start_time", n))
  {
    assert SetInFields("start_time", n, Field("start_time", Int(start), End)) == Field("start_time", n, End);
    var args := Args("start_time", Int(start));
    assert SetInFields("start_time", n, args) == Args("start_time", n);
    var f3 := Field("tid", Int(0), args);
    var f2 := Field("pid", Int(c.pid), f3);
    var f1 := Field("name", String("clintercept_start_time"), f2);
    SetPast("start_time", n, "tid", Int(0), args);
    SetPast("start_time", n, "pid", Int(c.pid), f3);
    SetPast("start_time", n, "name", String("clintercept_start_time"), f2);
    SetPast("start_time", n, "ph", String("M"), f1);
    hide SetInFields;
  }

  lemma SetPast(key: string, n: Value, k: string, value: Value, rest: Fields)
    requires k != key && !value.Object?
    ensures SetInFields(key, n, Field(k, value, rest)) == Field(k, value, SetInFields(key, n, rest))
  {
  }

  predicate BeginsWith(log: seq<Entry>, a: Value, b: Value) { |log| >= 2 && log[0].event == a && log[1].event == b }

  lemma {:induction false} RunBegins(c: Config, bufferSize: uint32, ops: seq<Op>, start: uint64)
    requires Opened(Trace(c, bufferSize, ops), start)
    ensures BeginsWith(Run(c, bufferSize, ops).log, ProcessObject(c, ops[0].meta.name), StartObject(c, start))
  {
    hide TimingObjects, MetaEvent, Args;
    if |ops| == 2 {
      var none: seq<Op> := [];
      assert ops[..1] == none + [ops[0]] && ops == ops[..1] + [ops[1]];
      RunSnoc(c, bufferSize, none, ops[0]);
      RunSnoc(c, bufferSize, ops[..1], ops[1]);
    } else {
      RunBegins(c, bufferSize, ops[..|ops| - 1], start);
    }
  }

  lemma FirstObjects(t: Trace, start: uint64)
    requires Opened(t, start)
    ensures |LogOf(t)| >= 2
    ensures ObjectsOf(t)[0] == ProcessObject(t.config, t.ops[0].meta.name) && ObjectsOf(t)[1] == StartObject(t.config, start)
  {
    hide MetaEvent, Args, Eof, Run, ProcessObject, StartObject;
    RunBegins(t.config, t.bufferSize, t.ops, start);
  }

  lemma PieceAfterColon(a: string, digits: string)
    requires AllDigits(digits)
    ensures LastPiece(":", a + (":" + (digits + "}},\n"))) == digits + "}},\n"
  {
    var rest := digits + "}},\n";
    assert forall c :: c in rest ==> c != ':';
    AfterColon(a, rest);
  }

  /** The start time of any file: the digits, in quotes or not, between the last colon and a brace of its third line. */
  lemma StartIsRead(lines: seq<string>, k: nat, a: string, opening: string, digits: string, closing: string, b: string)
    requires |lines| > 2 && lines[2] == a + (":" + ((opening + (digits + closing)) + ("}" + b)))
    requires opening in ["", "\""] && closing in ["", "\""] && AllDigits(digits) && digits != "" && ':' !in b
    requires k < |lines| && Contains(lines[k], "start_time")
    ensures StartOf(lines) == Some(Text.Value(digits))
  {
    hide Trim, Contains;
    var number := opening + (digits + closing);
    var rest := number + ("}" + b);
    assert forall c :: c in rest ==> c != ':';
    assert forall c :: c in number ==> c != '}';
    AfterColon(a, rest);
    FirstPieceOf(number, '}', b);
    assert ['}'] + b == "}" + b;
    TrimPadded(IsQuote, opening, digits, closing);
    TrimTrimmed(IsQuote, digits);
  }

  lemma AfterColon(a: string, rest: string)
    requires ':' !in rest
    ensures LastPiece(":", a + (":" + rest)) == rest
  {
    NotFoundIn(rest, "", ":");
    assert rest + "" == rest && (":" + rest)[1..] == rest;
    AfterLastSome(":", rest);
    assert ":" <= ":" + rest;
    AfterLastIn(":", a, ":" + rest);
    StripPrefixOf(":", rest);
  }

  /** And there is none in a file that nowhere has that key's name, or has fewer than three lines. */
  lemma StartIsMissing(lines: seq<string>)
    requires |lines| < 3 || forall k :: 0 <= k < |lines| ==> !Contains(lines[k], "start_time")
    ensures StartOf(lines) == None
  {
    hide Contains;
  }

  lemma DigitsBeforeBrace(digits: string)
    requires AllDigits(digits) && digits != ""
    ensures Trim(IsQuote, FirstPiece('}', digits + "}},\n")) == digits
  {
    assert "}" + "},\n" == "}},\n";
    FirstPieceOf(digits, '}', "},\n");
    assert ['}'] + "},\n" == "}},\n";
    TrimTrimmed(IsQuote, digits);
  }

  /** The third line of such a trace gives its start time. */
  lemma StartFound(t: Trace, start: uint64)
    requires PlainTrace(t) && Opened(t, start)
    ensures StartOf(ReadLines(TextOf(t))) == Some(start)
  {
    hide Clean, Eof, Print, ReadLines, FileText, Line, PlainOp, Known, Run, Digits, LastPiece, FirstPiece, Trim, Contains,
         MetaEvent, Args;
    var lines := ReadLines(TextOf(t));
    TraceObjects(t);
    KnownIsClean(ObjectsOf(t));
    AllAppend(Clean, Objects(LogOf(t)), [Eof(t.config)]);
    ReadTraceLines(t.config, LogOf(t));
    FirstObjects(t, start);
    assert lines[2] == Line(StartObject(t.config, start));
    StartTimeLineIs(t.config.pid, start);
    StartLineRead(t.config.pid, start);
  }

  lemma StartLineRead(pid: uint64, start: uint64)
    ensures var line := StartTimeLine(pid, start);
            && Contains(line, "start_time")
            && Trim(IsQuote, FirstPiece('}', LastPiece(":", line))) == Digits(start) && Text.Value(Digits(start)) == start
  {
    hide Digits, LastPiece, FirstPiece, Trim, Contains;
    var line := StartTimeLine(pid, start);
    var pre := "{\"ph\":\"M\",\"name\":\"clintercept_start_time\",\"pid\":" + (Digits(pid) + ",\"tid\":0,\"args\":{\"start_time\"");
    var tail := Digits(start) + "}},\n";
    StartLineParts(pid, start);
    PieceAfterColon(pre, Digits(start));
    DigitsBeforeBrace(Digits(start));
    DigitsRoundTrip(start);
    FoundInside("{\"ph\":\"M\",\"name\":\"clintercept_", "start_time",
                "\",\"pid\":" + (Digits(pid) + (",\"tid\":0" + (",\"args\":{\"start_time\":" + tail))));
  }

  lemma StartLineParts(pid: uint64, start: uint64)
    ensures StartTimeLine(pid, start)
         == ("{\"ph\":\"M\",\"name\":\"clintercept_start_time\",\"pid\":" + (Digits(pid) + ",\"tid\":0,\"args\":{\"start_time\""))
            + (":" + (Digits(start) + "}},\n"))
    ensures StartTimeLine(pid, start)
         == "{\"ph\":\"M\",\"name\":\"clintercept_" + ("start_time" + ("\",\"pid\":"
            + (Digits(pid) + (",\"tid\":0" + (",\"args\":{\"start_time\":" + (Digits(start) + "}},\n"))))))
  {
    hide Digits;
    var lead, tail := "{\"ph\":\"M\",\"name\":\"clintercept_start_time\",\"pid\":", Digits(start) + "}},\n";
    StartLiterals();
    Regroup(",\"tid\":0", ",\"args\":{\"start_time\":", tail);
    Regroup(",\"tid\":0,\"args\":{\"start_time\"", ":", tail);
    Regroup(Digits(pid), ",\"tid\":0,\"args\":{\"start_time\"", ":" + tail);
    Regroup(lead, Digits(pid) + ",\"tid\":0,\"args\":{\"start_time\"", ":" + tail);
    var more := Digits(pid) + (",\"tid\":0" + (",\"args\":{\"start_time\":" + tail));
    Regroup("start_time", "\",\"pid\":", more);
    Regroup("{\"ph\":\"M\",\"name\":\"clintercept_", "start_time" + "\",\"pid\":", more);
  }

  lemma StartLiterals()
    ensures ",\"tid\":0" + ",\"args\":{\"start_time\":" == ",\"tid\":0,\"args\":{\"start_time\"" + ":"
    ensures "{\"ph\":\"M\",\"name\":\"clintercept_start_time\",\"pid\":"
         == "{\"ph\":\"M\",\"name\":\"clintercept_" + ("start_time" + "\",\"pid\":")
  {
    StartLead();
  }

  lemma StartLead()
    ensures "{\"ph\":\"M\",\"name\":\"clintercept_start_time\",\"pid\":"
         == "{\"ph\":\"M\",\"name\":\"clintercept_" + ("start_time" + "\",\"pid\":")
  {
  }

  // ---- All traces ----

  function Texts(traces: seq<Trace>): seq<string> {
    seq(|traces|, j requires 0 <= j < |traces| => TextOf(traces[j]))
  }

  ghost predicate Openings(traces: seq<Trace>, starts: seq<uint64>) {
    |traces| == |starts| && forall j :: 0 <= j < |traces| ==> PlainTrace(traces[j]) && Opened(traces[j], starts[j])
  }

  lemma {:induction false} StartsFound(traces: seq<Trace>, starts: seq<uint64>)
    requires Openings(traces, starts)
    ensures StartsOf(Texts(traces)) == Some(starts)
  {
    hide StartOf, ReadLines, TextOf, PlainTrace, Opened;
    if traces != [] {
      var n := |traces| - 1;
      StartsFound(traces[..n], starts[..n]);
      StartFound(traces[n], starts[n]);
      assert Texts(traces)[..n] == Texts(traces[..n]);
      assert starts[..n] + [starts[n]] == starts;
    }
  }

  /** What the merged file keeps of a trace: all but the first of its kept objects, counted from the epoch. */
  function Part(filters: seq<string>, t: Trace, offset: nat, epoch: nat): seq<Value> {
    var kept := RebasedObjects(KeptObjects(filters, ObjectsOf(t)), offset, epoch);
    if kept == [] then [] else kept[1..]
  }

  /** The parts of the first `n` traces, one after another. */
  function MergedObjects(filters: seq<string>, traces: seq<Trace>, starts: seq<uint64>, n: nat): seq<Value>
    requires n <= |traces| == |starts| && traces != []
  {
    if n == 0 then []
    else MergedObjects(filters, traces, starts, n - 1)
         + Part(filters, traces[n - 1], starts[n - 1] - Least(starts), Least(starts))
  }

  lemma {:induction false} ObjectLinesAreText(objects: seq<Value>)
    ensures FlatMap(Id, LinesOf(objects)) == FlatMap(Line, objects)
  {
    hide Line;
    if objects != [] {
      ObjectLinesAreText(objects[1..]);
      assert LinesOf(objects)[1..] == LinesOf(objects[1..]);
    }
  }

  lemma WrittenPart(filters: seq<string>, t: Trace, offset: nat, epoch: nat)
    ensures Written(LinesOf(RebasedObjects(KeptObjects(filters, ObjectsOf(t)), offset, epoch)))
         == FlatMap(Line, Part(filters, t, offset, epoch))
  {
    hide Line, Rebased, FlatMap, KeptObjects, ObjectsOf;
    var kept := RebasedObjects(KeptObjects(filters, ObjectsOf(t)), offset, epoch);
    if kept != [] {
      ObjectLinesAreText(kept[1..]);
      assert LinesOf(kept)[1..] == LinesOf(kept[1..]);
    } else {
      ObjectLinesAreText([]);
      NoText();
    }
  }

  lemma NoText()
    ensures FlatMap(Line, []) == "" && FlatMap(Written, []) == ""
  {
  }

  ghost predicate NoneClashes(traces: seq<Trace>, n: nat)
    requires n <= |traces|
  {
    forall j :: 0 <= j < n ==> NoneNamedTs(traces[j].ops)
  }

  lemma {:induction false} PartClean(filters: seq<string>, t: Trace, offset: nat, epoch: nat)
    requires All(Clean, KeptObjects(filters, ObjectsOf(t)))
    ensures All(Clean, Part(filters, t, offset, epoch))
  {
    hide Clean, KeptObjects, ObjectsOf;
    var objects := KeptObjects(filters, ObjectsOf(t));
    forall i | 0 <= i < |objects| ensures Clean(Rebased(objects[i], offset, epoch)) {
      RebasedClean(objects[i], offset, epoch);
    }
    hide Rebased;
  }

  lemma RebasedClean(v: Value, offset: nat, epoch: nat)
    requires Clean(v)
    ensures Clean(Rebased(v, offset, epoch))
  {
  }

  lemma {:induction false} FilesMerged(filters: seq<string>, traces: seq<Trace>, starts: seq<uint64>, n: nat)
    requires Openings(traces, starts) && traces != [] && n <= |traces|
    ensures var r := MergedLines(Texts(traces), filters, starts, n);
            && (r.Some? <==> NoneClashes(traces, n))
            && (r.Some? ==> FlatMap(Written, r.value) == FlatMap(Line, MergedObjects(filters, traces, starts, n)))
            && All(Clean, MergedObjects(filters, traces, starts, n))
  {
    hide Kept, ReadLines, TextOf, KeptObjects, ObjectsOf, PlainTrace, Opened, NoneNamedTs, Line, Clean, RebaseAll, Written, Part,
         LinesOf, RebasedObjects, Least, FlatMap, All;
    if n == 0 {
      NoText();
      NoneOf();
    } else {
      var t, offset := traces[n - 1], starts[n - 1] - Least(starts);
      var before := MergedLines(Texts(traces), filters, starts, n - 1);
      FilesMerged(filters, traces, starts, n - 1);
      assert PlainTrace(t);
      TraceRebased(filters, t, offset, Least(starts));
      WrittenPart(filters, t, offset, Least(starts));
      PartClean(filters, t, offset, Least(starts));
      var last := LinesOf(RebasedObjects(KeptObjects(filters, ObjectsOf(t)), offset, Least(starts)));
      var objects, part := MergedObjects(filters, traces, starts, n - 1), Part(filters, t, offset, Least(starts));
      AllAppend(Clean, objects, part);
      FlatMapAppend(Line, objects, part);
      if before.Some? {
        FlatMapSnoc(Written, before.value, last);
      }
    }
  }

  lemma NoneOf()
    ensures All(Clean, [])
  {
  }

  const MERGED_END := MetaEvent("clintercept_merged_eof", 0, Int(0), End)

  lemma MergedEndMeans()
    ensures Says(MERGED_END, "M", 0, Number(0, ""), "clintercept_merged_eof")
  {
    MetaEventSays("clintercept_merged_eof", 0, Number(0, ""), End);
    hide MetaEvent;
  }

  lemma MergedEofText()
    ensures MERGED_EOF + "]\n" == Print(MERGED_END, "\n]\n")
  {
    hide Print;
    var lead := "{\"ph\":\"M\",\"name\":\"clintercept_merged_eof\",\"pid\":";
    MergedLead();
    MergedTail();
    LastObjectText("clintercept_merged_eof", lead, 0);
    MergedLiteral();
    Regroup(lead, "0,\"tid\":0}\n", "]\n");
  }

  lemma MergedLiteral()
    ensures MERGED_EOF == "{\"ph\":\"M\",\"name\":\"clintercept_merged_eof\",\"pid\":" + "0,\"tid\":0}\n"
  {
  }

  lemma MergedTail()
    ensures "0,\"tid\":0}\n" + "]\n" == Digits(0) + ",\"tid\":0}\n]\n"
  {
    assert Digits(0) == "0";
  }

  lemma MergedLead()
    ensures "{\"ph\":\"M\",\"name\":\"clintercept_merged_eof\",\"pid\":"
         == "{\"ph\":\"M\",\"name\":\"" + ("clintercept_merged_eof" + "\",\"pid\":")
  {
  }

  lemma MergedEndClean()
    ensures Clean(MERGED_END)
  {
    PlainLiterals();
    assert PlainText("clintercept_merged_eof");
    hide PlainText;
    var f3 := Field("tid", Int(0), End);
    assert CleanFields(f3);
    var f2 := Field("pid", Int(0), f3);
    assert CleanFields(f2);
    assert CleanFields(Field("name", String("clintercept_merged_eof"), f2));
  }

  /**
   Merging the closed traces of runs with plain names. The script succeeds if and only if no process and no queue
   is named `ts`; and then the merged file is one JSON array of, trace by trace, the objects that pass the filters,
   without each trace's first and with their times counted from the earliest start, and the merged end object.
   */
  lemma MergedFileReadsBack(filters: seq<string>, traces: seq<Trace>, starts: seq<uint64>)
    requires Openings(traces, starts) && |traces| >= 2
    ensures var r := Combined(Texts(traces), filters);
            && (r.Some? <==> NoneClashes(traces, |traces|))
            && (r.Some? ==> ReadArray(r.value) == Some(MergedObjects(filters, traces, starts, |traces|) + [MERGED_END]))
  {
    hide StartsOf, TextOf, MergedLines, MergedObjects, Clean, Print, Line, FlatMap, ReadArray, PrintElements, NoneClashes,
         PlainTrace, Opened;
    var objects := MergedObjects(filters, traces, starts, |traces|);
    StartsFound(traces, starts);
    FilesMerged(filters, traces, starts, |traces|);
    MergedEofText();
    MergedEndClean();
    LinesAreElements(objects, MERGED_END);
    ArrayReadsBack(objects, MERGED_END);
  }

  /** The object lost from each trace is the one that names its process. */
  lemma ProcessNamesLost(filters: seq<string>, t: Trace, start: uint64)
    requires Opened(t, start)
    ensures var kept := KeptObjects(filters, ObjectsOf(t));
            kept != [] && kept[0] == ProcessObject(t.config, t.ops[0].meta.name)
  {
    hide MetaEvent, Args, Eof, Run, KeptObjects, Keep, Line;
    FirstObjects(t, start);
    ProcessKept(filters, t.config, t.ops[0].meta.name);
    FirstKept(filters, ObjectsOf(t));
  }

  lemma ProcessKept(filters: seq<string>, c: Config, name: string)
    ensures Keep(filters, Line(ProcessObject(c, name)))
  {
    MetadataKept(filters, ProcessObject(c, name), ",\n");
  }

  lemma {:induction false} FirstKept(filters: seq<string>, objects: seq<Value>)
    requires objects != [] && Keep(filters, Line(objects[0]))
    ensures KeptObjects(filters, objects) != [] && KeptObjects(filters, objects)[0] == objects[0]
  {
    hide Keep, Line;
    if |objects| > 1 {
      FirstKept(filters, objects[..|objects| - 1]);
    }
  }
}
