/** The closed file of a whole run, in terms of the calls made and the names passed to them. */
module TraceFile {
  import opened Text
  import opened Words
  import opened Json
  import opened Micros
  import opened ChromeTrace

  /** The strings of a call need no escaping. */
  predicate PlainOp(op: Op) {
    match op
    case AddTiming(t) => PlainText(t.name) && (t.CallTag? || t.CallTagId? ==> PlainText(t.tag))
    case AddMeta(ProcessName(name)) => PlainText(name)
    case AddMeta(QueueName(_, name)) => PlainText(name)
    case AddMeta(_) => true
    case Flush => true
  }

  predicate AllClean(objects: seq<Value>) { forall i :: 0 <= i < |objects| ==> Clean(objects[i]) }

  lemma AllCleanAppend(a: seq<Value>, b: seq<Value>)
    ensures AllClean(a + b) <==> AllClean(a) && AllClean(b)
  {
    assert forall i :: 0 <= i < |a| ==> (a + b)[i] == a[i];
    assert forall i :: 0 <= i < |b| ==> (a + b)[|a| + i] == b[i];
  }

  lemma PlainAppend(a: string, b: string)
    ensures PlainText(a + b) <==> PlainText(a) && PlainText(b)
  {
    assert forall i :: 0 <= i < |a| ==> (a + b)[i] == a[i];
    assert forall i :: 0 <= i < |b| ==> (a + b)[|a| + i] == b[i];
  }

  lemma PlainLiterals()
    ensures PlainText("X") && PlainText("M") && PlainText("s") && PlainText("f")
    ensures PlainText("ph") && PlainText("pid") && PlainText("tid") && PlainText("name") && PlainText("ts")
    ensures PlainText("dur") && PlainText("cat") && PlainText("id") && PlainText("args") && PlainText("cname")
    ensures PlainText("Command") && PlainText("Commands") && PlainText("( ") && PlainText(" )") && PlainText(" ")
    ensures PlainText("sort_index") && PlainText("start_time")
  {
  }

  lemma PlainColours()
    ensures PlainText("thread_state_runnable") && PlainText("cq_build_running") && PlainText("thread_state_iowait")
  {
  }

  lemma PlainStages(stage: nat)
    ensures PlainText(Colour(stage)) && PlainText(Suffix(stage))
  {
    PlainColours();
    assert PlainText("(Queued)") && PlainText("(Submitted)") && PlainText("(Execution)");
    hide PlainText;
  }

  lemma PlainMetaNames()
    ensures PlainText("process_name") && PlainText("thread_name") && PlainText("thread_sort_index")
    ensures PlainText("clintercept_start_time") && PlainText("Host Thread ")
  {
  }

  lemma PlainDigits(s: string)
    requires AllDigits(s)
    ensures PlainText(s)
  {
    assert forall i :: 0 <= i < |s| ==> IsDigit(s[i]);
  }

  lemma CleanEvent(ph: string, pid: uint64, tid: Value, rest: Fields)
    requires PlainText(ph)
    ensures Clean(Event(ph, pid, tid, rest)) <==> Clean(tid) && CleanFields(rest)
  {
    PlainLiterals();
    hide PlainText;
    var f2 := Field("tid", tid, rest);
    assert CleanFields(Field("pid", Int(pid), f2)) <==> CleanFields(f2);
    assert Clean(String(ph));
  }

  lemma CleanIdArgs(id: uint64)
    ensures CleanFields(IdArgs(id))
  {
    PlainLiterals();
    hide PlainText;
    assert CleanFields(Field("id", Int(id), End));
  }

  lemma CleanSlice(name: string, start: uint64, delta: uint64, rest: Fields)
    ensures CleanFields(Slice(name, start, delta, rest)) <==> PlainText(name) && CleanFields(rest)
  {
    PlainLiterals();
    hide PlainText;
    var dur := Field("dur", Micro(delta), rest);
    assert CleanFields(dur) <==> CleanFields(rest);
    assert CleanFields(Field("ts", Micro(start), dur)) <==> CleanFields(dur);
  }

  lemma CleanFlow(ph: string, pid: uint64, tid: Value, start: uint64, id: uint64)
    requires PlainText(ph)
    ensures Clean(Flow(ph, pid, tid, start, id)) <==> Clean(tid)
  {
    PlainLiterals();
    hide PlainText;
    var f3 := Field("id", Int(id), End);
    assert CleanFields(f3);
    var f2 := Field("ts", Micro(start), f3);
    assert CleanFields(f2);
    var f1 := Field("cat", String("Commands"), f2);
    assert CleanFields(f1);
    CleanEvent(ph, pid, tid, Field("name", String("Command"), f1));
  }

  lemma CleanStage(pid: uint64, tid: Value, name: string, stage: nat, start: uint64, delta: uint64, id: uint64)
    ensures Clean(StageObject(pid, tid, name, stage, start, delta, id)) <==> Clean(tid) && PlainText(name)
  {
    PlainLiterals();
    PlainStages(stage);
    CleanIdArgs(id);
    PlainAppend(name, " " + Suffix(stage));
    PlainAppend(" ", Suffix(stage));
    hide PlainText, IdArgs, Suffix, Colour;
    var cname := Field("cname", String(Colour(stage)), IdArgs(id));
    assert CleanFields(cname);
    CleanSlice(name + (" " + Suffix(stage)), start, delta, cname);
    CleanEvent("X", pid, tid, Slice(name + (" " + Suffix(stage)), start, delta, cname));
  }

  lemma CleanStages(pid: uint64, tid: Value, name: string, queued: uint64, submit: uint64,
                    start: uint64, end: uint64, id: uint64)
    ensures AllClean(StageObjects(pid, tid, name, queued, submit, start, end, id)) <==> Clean(tid) && PlainText(name)
  {
    hide PlainText, StageObject, Clean;
    CleanStage(pid, tid, name, 0, queued, Minus(submit, queued), id);
    CleanStage(pid, tid, name, 1, submit, Minus(start, submit), id);
    CleanStage(pid, tid, name, 2, start, Minus(end, start), id);
    var s := StageObjects(pid, tid, name, queued, submit, start, end, id);
    assert AllClean(s) <==> Clean(s[0]) && Clean(s[1]) && Clean(s[2]);
  }

  lemma CleanOne(v: Value)
    ensures AllClean([v]) <==> Clean(v)
  {
    assert [v][0] == v;
  }

  lemma CleanCall(pid: uint64, tid: Value, name: string, start: uint64, delta: uint64, rest: Fields)
    requires CleanFields(rest)
    ensures AllClean([Event("X", pid, tid, Slice(name, start, delta, rest))]) <==> Clean(tid) && PlainText(name)
  {
    PlainLiterals();
    hide PlainText, Slice, Event;
    CleanSlice(name, start, delta, rest);
    CleanEvent("X", pid, tid, Slice(name, start, delta, rest));
    CleanOne(Event("X", pid, tid, Slice(name, start, delta, rest)));
  }

  /** A call with its flow event, on either side. */
  lemma CleanWithFlow(ph: string, c: Config, tid: Value, name: string, start: uint64, delta: uint64, id: uint64)
    requires PlainText(ph)
    ensures var call, flow := [Event("X", c.pid, tid, Slice(name, start, delta, IdArgs(id)))],
                              (if c.flow then [Flow(ph, c.pid, tid, start, id)] else []);
            && (AllClean(call + flow) <==> Clean(tid) && PlainText(name))
            && (AllClean(flow + call) <==> Clean(tid) && PlainText(name))
  {
    hide PlainText, Slice, Event, Flow, IdArgs;
    var call := [Event("X", c.pid, tid, Slice(name, start, delta, IdArgs(id)))];
    var flow := if c.flow then [Flow(ph, c.pid, tid, start, id)] else [];
    CleanIdArgs(id);
    CleanCall(c.pid, tid, name, start, delta, IdArgs(id));
    CleanFlow(ph, c.pid, tid, start, id);
    CleanOne(Flow(ph, c.pid, tid, start, id));
    AllCleanAppend(call, flow);
    AllCleanAppend(flow, call);
  }

  lemma PlainTagged(name: string, tag: string)
    ensures PlainText(Tagged(name, tag)) <==> PlainText(name) && PlainText(tag)
  {
    PlainLiterals();
    PlainAppend(name, "( " + (tag + " )"));
    PlainAppend("( ", tag + " )");
    PlainAppend(tag, " )");
  }

  lemma CleanTracks(n: nat, s: string)
    requires AllDigits(s)
    ensures Clean(Int(n)) && Clean(Number(n, "1")) && Clean(Number(n, s))
  {
  }

  lemma CleanTiming(c: Config, t: Timing)
    ensures AllClean(TimingObjects(c, t)) <==> PlainOp(AddTiming(t))
  {
    PlainLiterals();
    hide PlainText, Slice, Event, Flow, IdArgs, StageObjects, Clean, Tagged, AllClean, Digits;
    match t
    case Call(name, threadId, start, delta) =>
      CleanTracks(threadId, "");
      CleanCall(c.pid, Int(threadId), name, start, delta, End);
    case CallTag(name, tag, threadId, start, delta) =>
      CleanTracks(threadId, "");
      PlainTagged(name, tag);
      CleanCall(c.pid, Int(threadId), Tagged(name, tag), start, delta, End);
    case CallId(name, threadId, start, delta, id) =>
      CleanTracks(threadId, "");
      CleanWithFlow("s", c, Int(threadId), name, start, delta, id);
    case CallTagId(name, tag, threadId, start, delta, id) =>
      CleanTracks(threadId, "");
      PlainTagged(name, tag);
      CleanWithFlow("s", c, Int(threadId), Tagged(name, tag), start, delta, id);
    case Device(name, queue, start, end, id) =>
      CleanTracks(queue, "");
      CleanWithFlow("f", c, Number(queue, "1"), name, start, Minus(end, start), id);
    case DevicePerKernel(name, start, end, id) =>
      CleanName(name);
      CleanWithFlow("f", c, String(name), name, start, Minus(end, start), id);
    case Stages(name, count, queue, queued, submit, start, end, id) =>
      CleanTracks(count, Digits(queue));
      CleanStages(c.pid, Number(count, Digits(queue)), name, queued, submit, start, end, id);
    case StagesPerKernel(name, queued, submit, start, end, id) =>
      CleanName(name);
      CleanStages(c.pid, String(name), name, queued, submit, start, end, id);
  }

  lemma CleanName(name: string)
    ensures Clean(String(name)) <==> PlainText(name)
  {
  }

  lemma CleanMetaEvent(name: string, pid: uint64, tid: Value, key: string, value: Value)
    requires PlainText(name) && Clean(tid) && PlainText(key)
    ensures Clean(MetaEvent(name, pid, tid, Args(key, value))) <==> Clean(value)
  {
    PlainLiterals();
    hide PlainText;
    var inner := Field(key, value, End);
    assert CleanFields(inner) <==> Clean(value);
    assert Clean(Object(inner)) <==> CleanFields(inner);
    var args := Args(key, value);
    assert CleanFields(args) <==> Clean(Object(inner));
    var f3 := Field("tid", tid, args);
    assert CleanFields(f3) <==> CleanFields(args);
    var f2 := Field("pid", Int(pid), f3);
    assert CleanFields(f2) <==> CleanFields(f3);
    var f1 := Field("name", String(name), f2);
    assert CleanFields(f1) <==> CleanFields(f2);
    assert CleanFields(Field("ph", String("M"), f1)) <==> CleanFields(f1);
  }

  lemma CleanPair(a: Value, b: Value)
    ensures AllClean([a, b]) <==> Clean(a) && Clean(b)
  {
    assert [a, b][0] == a && [a, b][1] == b;
  }

  lemma CleanMeta(c: Config, m: Meta)
    ensures AllClean(MetaObjects(c, m)) <==> PlainOp(AddMeta(m))
  {
    PlainLiterals();
    PlainMetaNames();
    hide PlainText, MetaEvent, Args, Clean, AllClean, Digits;
    match m
    case ProcessName(name) =>
      CleanTracks(0, "");
      CleanName(name);
      CleanMetaEvent("process_name", c.pid, Int(0), "name", String(name));
      CleanOne(MetaEvent("process_name", c.pid, Int(0), Args("name", String(name))));
    case ThreadName(threadId, number) =>
      var index := Digits((number + 10000) % 0x1_0000_0000);
      var title := "Host Thread " + Digits(threadId);
      CleanTracks(threadId, "");
      PlainDigits(index);
      PlainDigits(Digits(threadId));
      PlainAppend("Host Thread ", Digits(threadId));
      CleanName(title);
      CleanName(index);
      CleanMetaEvent("thread_name", c.pid, Int(threadId), "name", String(title));
      CleanMetaEvent("thread_sort_index", c.pid, Int(threadId), "sort_index", String(index));
      CleanPair(MetaEvent("thread_name", c.pid, Int(threadId), Args("name", String(title))),
                MetaEvent("thread_sort_index", c.pid, Int(threadId), Args("sort_index", String(index))));
    case StartTime(start) =>
      CleanTracks(0, "");
      CleanTracks(start, "");
      CleanMetaEvent("clintercept_start_time", c.pid, Int(0), "start_time", Int(start));
      CleanOne(MetaEvent("clintercept_start_time", c.pid, Int(0), Args("start_time", Int(start))));
    case QueueName(queue, name) =>
      CleanTracks(queue, "");
      PlainDigits(Digits(queue));
      CleanName(name);
      CleanName(Digits(queue));
      CleanMetaEvent("thread_name", c.pid, Number(queue, "1"), "name", String(name));
      CleanMetaEvent("thread_sort_index", c.pid, Number(queue, "1"), "sort_index", String(Digits(queue)));
      CleanPair(MetaEvent("thread_name", c.pid, Number(queue, "1"), Args("name", String(name))),
                MetaEvent("thread_sort_index", c.pid, Number(queue, "1"), Args("sort_index", String(Digits(queue)))));
  }

  ghost predicate CallsClean(c: Config, ops: seq<Op>) {
    AllClean(AllObjects(c, TimingsOf(ops))) && AllClean(MetasOf(c, ops))
  }

  lemma CleanSnoc(c: Config, pre: seq<Op>, op: Op)
    ensures CallsClean(c, pre + [op]) <==> CallsClean(c, pre) && PlainOp(op)
  {
    hide PlainOp, TimingObjects, MetaObjects, AllClean, TimingsOf, MetasOf, AllObjects;
    OpsSnoc(c, pre, op);
    match op
    case AddTiming(t) =>
      CleanTiming(c, t);
      AllObjectsSnoc(c, TimingsOf(pre), t);
      AllCleanAppend(AllObjects(c, TimingsOf(pre)), TimingObjects(c, t));
    case AddMeta(m) =>
      CleanMeta(c, m);
      AllCleanAppend(MetasOf(c, pre), MetaObjects(c, m));
    case Flush =>
      FlushPlain();
  }

  lemma {:induction false} CleanCalls(c: Config, ops: seq<Op>)
    ensures CallsClean(c, ops) <==> forall i :: 0 <= i < |ops| ==> PlainOp(ops[i])
  {
    hide PlainOp, TimingObjects, MetaObjects;
    if ops != [] {
      hide CallsClean;
      var pre, op := ops[..|ops| - 1], ops[|ops| - 1];
      CleanCalls(c, pre);
      CleanSnoc(c, pre, op);
      assert pre + [op] == ops;
      assert forall i :: 0 <= i < |pre| ==> pre[i] == ops[i];
    }
  }

  lemma FlushPlain()
    ensures PlainOp(Flush)
  {
  }

  lemma {:induction false} CleanByClass(log: seq<Entry>)
    ensures AllClean(Select(true, log)) && AllClean(Select(false, log)) <==> forall i :: 0 <= i < |log| ==> Clean(log[i].event)
  {
    hide Clean;
    if log != [] {
      var pre, e := log[..|log| - 1], log[|log| - 1];
      CleanByClass(pre);
      CleanOne(e.event);
      AllCleanAppend(Select(true, pre), [e.event]);
      AllCleanAppend(Select(false, pre), [e.event]);
      AppendEmpty(Select(true, pre));
      AppendEmpty(Select(false, pre));
      assert pre + [e] == log;
    }
  }

  /**
   For every run, buffer size and placement of flushes, the closed file is one JSON array that reads back
   as exactly the objects written and the end-of-file object, precisely when every name and tag is plain.
   */
  lemma RunReadsBack(c: Config, bufferSize: uint32, ops: seq<Op>)
    ensures var log := Close(Run(c, bufferSize, ops)).log;
            ReadArray(FileText(c, log)) == Some(Objects(log) + [Eof(c)]) <==> forall i :: 0 <= i < |ops| ==> PlainOp(ops[i])
  {
    hide PlainOp, Clean, AllClean, FileText, ReadArray, Eof;
    var log := Close(Run(c, bufferSize, ops)).log;
    FileReadsBack(c, log);
    CleanByClass(log);
    BufferingInvisible(c, bufferSize, ops, true);
    BufferingInvisible(c, bufferSize, ops, false);
    CleanCalls(c, ops);
  }
}
