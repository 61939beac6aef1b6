/**
 What a Chrome trace contains: the objects written for each timing and metadata call, the write-behind
 buffer between the calls and the file, and the file as one JSON array.
 */
module ChromeTrace {
  import opened Text
  import opened Words
  import opened Json
  import opened Micros

  datatype Timing =
    | Call(name: string, threadId: uint64, start: uint64, delta: uint64)
    | CallTag(name: string, tag: string, threadId: uint64, start: uint64, delta: uint64)
    | CallId(name: string, threadId: uint64, start: uint64, delta: uint64, id: uint64)
    | CallTagId(name: string, tag: string, threadId: uint64, start: uint64, delta: uint64, id: uint64)
    | Device(name: string, queue: uint32, start: uint64, end: uint64, id: uint64)
    | DevicePerKernel(name: string, start: uint64, end: uint64, id: uint64)
    | Stages(name: string, count: uint32, queue: uint32,
             queued: uint64, submit: uint64, start: uint64, end: uint64, id: uint64)
    | StagesPerKernel(name: string, queued: uint64, submit: uint64, start: uint64, end: uint64, id: uint64)

  datatype Meta =
    | ProcessName(name: string)
    | ThreadName(threadId: uint64, threadNumber: uint32)
    | StartTime(start: uint64)
    | QueueName(queue: uint32, name: string)

  datatype Config = Config(pid: uint64, flow: bool)

  // ---- Objects ----

  function Int(n: nat): Value { Number(n, "") }

  function Micro(t: uint64): Value { Number(PrintedNs(t) / 1000, Pad3(PrintedNs(t) % 1000)) }

  /** Unsigned subtraction wraps. */
  function Minus(a: uint64, b: uint64): uint64 { (a - b) % TWO64 }

  function Tagged(name: string, tag: string): string { name + ("( " + (tag + " )")) }

  function Event(ph: string, pid: uint64, tid: Value, rest: Fields): Value {
    Object(Field("ph", String(ph), Field("pid", Int(pid), Field("tid", tid, rest))))
  }

  function IdArgs(id: uint64): Fields { Field("args", Object(Field("id", Int(id), End)), End) }

  function Slice(name: string, start: uint64, delta: uint64, rest: Fields): Fields {
    Field("name", String(name), Field("ts", Micro(start), Field("dur", Micro(delta), rest)))
  }

  /** A flow event, which ties a call to the device work it enqueued. */
  function Flow(ph: string, pid: uint64, tid: Value, start: uint64, id: uint64): Value {
    Event(ph, pid, tid,
          Field("name", String("Command"),
                Field("cat", String("Commands"), Field("ts", Micro(start), Field("id", Int(id), End)))))
  }

  function Colour(stage: nat): string {
    if stage == 0 then "thread_state_runnable" else if stage == 1 then "cq_build_running" else "thread_state_iowait"
  }

  function Suffix(stage: nat): string {
    if stage == 0 then "(Queued)" else if stage == 1 then "(Submitted)" else "(Execution)"
  }

  function StageObject(pid: uint64, tid: Value, name: string, stage: nat,
                       start: uint64, delta: uint64, id: uint64): Value
  {
    Event("X", pid, tid,
          Slice(name + (" " + Suffix(stage)), start, delta, Field("cname", String(Colour(stage)), IdArgs(id))))
  }

  /** The three slices of a command's life: times are its four profiling timestamps. */
  function StageObjects(pid: uint64, tid: Value, name: string, queued: uint64, submit: uint64,
                        start: uint64, end: uint64, id: uint64): seq<Value>
  {
    [StageObject(pid, tid, name, 0, queued, Minus(submit, queued), id),
     StageObject(pid, tid, name, 1, submit, Minus(start, submit), id),
     StageObject(pid, tid, name, 2, start, Minus(end, start), id)]
  }

  function CallObjects(c: Config, name: string, threadId: uint64, start: uint64, delta: uint64, id: uint64): seq<Value> {
    [Event("X", c.pid, Int(threadId), Slice(name, start, delta, IdArgs(id)))]
    + (if c.flow then [Flow("s", c.pid, Int(threadId), start, id)] else [])
  }

  function DeviceObjects(c: Config, tid: Value, name: string, start: uint64, end: uint64, id: uint64): seq<Value> {
    (if c.flow then [Flow("f", c.pid, tid, start, id)] else [])
    + [Event("X", c.pid, tid, Slice(name, start, Minus(end, start), IdArgs(id)))]
  }

  function TimingObjects(c: Config, t: Timing): seq<Value> {
    match t
    case Call(name, threadId, start, delta) => [Event("X", c.pid, Int(threadId), Slice(name, start, delta, End))]
    case CallTag(name, tag, threadId, start, delta) =>
      [Event("X", c.pid, Int(threadId), Slice(Tagged(name, tag), start, delta, End))]
    case CallId(name, threadId, start, delta, id) => CallObjects(c, name, threadId, start, delta, id)
    case CallTagId(name, tag, threadId, start, delta, id) => CallObjects(c, Tagged(name, tag), threadId, start, delta, id)
    case Device(name, queue, start, end, id) => DeviceObjects(c, Number(queue, "1"), name, start, end, id)
    case DevicePerKernel(name, start, end, id) => DeviceObjects(c, String(name), name, start, end, id)
    case Stages(name, count, queue, queued, submit, start, end, id) =>
      StageObjects(c.pid, Number(count, Digits(queue)), name, queued, submit, start, end, id)
    case StagesPerKernel(name, queued, submit, start, end, id) =>
      StageObjects(c.pid, String(name), name, queued, submit, start, end, id)
  }

  function MetaEvent(name: string, pid: uint64, tid: Value, rest: Fields): Value {
    Object(Field("ph", String("M"), Field("name", String(name), Field("pid", Int(pid), Field("tid", tid, rest)))))
  }

  function Args(key: string, value: Value): Fields { Field("args", Object(Field(key, value, End)), End) }

  function MetaObjects(c: Config, m: Meta): seq<Value> {
    match m
    case ProcessName(name) => [MetaEvent("process_name", c.pid, Int(0), Args("name", String(name)))]
    case ThreadName(threadId, number) =>
      [MetaEvent("thread_name", c.pid, Int(threadId), Args("name", String("Host Thread " + Digits(threadId)))),
       MetaEvent("thread_sort_index", c.pid, Int(threadId),
                 Args("sort_index", String(Digits((number + 10000) % TWO32))))]
    case StartTime(start) => [MetaEvent("clintercept_start_time", c.pid, Int(0), Args("start_time", Int(start)))]
    case QueueName(queue, name) =>
      [MetaEvent("thread_name", c.pid, Number(queue, "1"), Args("name", String(name))),
       MetaEvent("thread_sort_index", c.pid, Number(queue, "1"), Args("sort_index", String(Digits(queue))))]
  }

  function Eof(c: Config): Value { MetaEvent("clintercept_eof", c.pid, Int(0), End) }

  // ---- The buffer between the calls and the file ----

  /** One object in the file, and which class of call wrote it. */
  datatype Entry = Entry(timing: bool, event: Value)

  function Entries(timing: bool, objects: seq<Value>): seq<Entry> {
    seq(|objects|, i requires 0 <= i < |objects| => Entry(timing, objects[i]))
  }

  datatype State = State(config: Config, bufferSize: uint32, log: seq<Entry>, pending: seq<Timing>)

  datatype Op = AddTiming(timing: Timing) | AddMeta(meta: Meta) | Flush

  function AllObjects(c: Config, ts: seq<Timing>): seq<Value> {
    if ts == [] then [] else AllObjects(c, ts[..|ts| - 1]) + TimingObjects(c, ts[|ts| - 1])
  }

  function Drain(s: State): State {
    s.(log := s.log + Entries(true, AllObjects(s.config, s.pending)), pending := [])
  }

  function Apply(s: State, op: Op): State {
    match op
    case AddTiming(t) =>
      if s.bufferSize == 0 then s.(log := s.log + Entries(true, TimingObjects(s.config, t)))
      else
        var u := s.(pending := s.pending + [t]);
        if |u.pending| >= s.bufferSize then Drain(u) else u
    case AddMeta(m) => s.(log := s.log + Entries(false, MetaObjects(s.config, m)))
    case Flush => Drain(s)
  }

  function Run(c: Config, bufferSize: uint32, ops: seq<Op>): State {
    if ops == [] then State(c, bufferSize, [], []) else Apply(Run(c, bufferSize, ops[..|ops| - 1]), ops[|ops| - 1])
  }

  lemma RunSnoc(c: Config, bufferSize: uint32, ops: seq<Op>, op: Op)
    ensures Run(c, bufferSize, ops + [op]) == Apply(Run(c, bufferSize, ops), op)
  {
    hide Apply;
    assert (ops + [op])[..|ops|] == ops;
  }

  /** The destructor flushes before it writes the last object. */
  function Close(s: State): State { Drain(s) }

  /** The objects of one class, in file order. */
  function Select(timing: bool, log: seq<Entry>): seq<Value> {
    if log == [] then []
    else Select(timing, log[..|log| - 1]) + (if log[|log| - 1].timing == timing then [log[|log| - 1].event] else [])
  }

  function TimingsOf(ops: seq<Op>): seq<Timing> {
    if ops == [] then []
    else TimingsOf(ops[..|ops| - 1]) + (if ops[|ops| - 1].AddTiming? then [ops[|ops| - 1].timing] else [])
  }

  function MetasOf(c: Config, ops: seq<Op>): seq<Value> {
    if ops == [] then []
    else MetasOf(c, ops[..|ops| - 1]) + (if ops[|ops| - 1].AddMeta? then MetaObjects(c, ops[|ops| - 1].meta) else [])
  }

  lemma {:induction false} SelectAppend(timing: bool, log: seq<Entry>, tag: bool, objects: seq<Value>)
    ensures Select(timing, log + Entries(tag, objects)) == Select(timing, log) + (if tag == timing then objects else [])
  {
    if objects == [] {
      assert log + Entries(tag, objects) == log;
    } else {
      var n := |objects| - 1;
      var all := log + Entries(tag, objects);
      SelectAppend(timing, log, tag, objects[..n]);
      assert all[..|all| - 1] == log + Entries(tag, objects[..n]);
      assert all[|all| - 1] == Entry(tag, objects[n]);
      assert objects[..n] + [objects[n]] == objects;
    }
  }

  lemma AllObjectsSnoc(c: Config, ts: seq<Timing>, t: Timing)
    ensures AllObjects(c, ts + [t]) == AllObjects(c, ts) + TimingObjects(c, t)
  {
    hide TimingObjects;
    assert (ts + [t])[..|ts|] == ts;
  }

  /** What the file and the buffer hold together, and how full the buffer may be. */
  ghost predicate Inv(c: Config, bufferSize: uint32, ops: seq<Op>, s: State) {
    && s.config == c && s.bufferSize == bufferSize
    && Select(true, s.log) + AllObjects(c, s.pending) == AllObjects(c, TimingsOf(ops))
    && Select(false, s.log) == MetasOf(c, ops)
    && (if bufferSize == 0 then s.pending == [] else |s.pending| < bufferSize)
  }

  lemma DrainKeepsInv(s: State)
    ensures Select(true, Drain(s).log) == Select(true, s.log) + AllObjects(s.config, s.pending)
    ensures Select(false, Drain(s).log) == Select(false, s.log)
  {
    SelectAppend(true, s.log, true, AllObjects(s.config, s.pending));
    SelectAppend(false, s.log, true, AllObjects(s.config, s.pending));
  }

  /**
   After every step: written objects, then buffered ones, are all the timing objects added, in order;
   metadata is written at once; and a buffered tracer holds fewer records than its buffer size.
   */
  lemma {:induction false} RunKeepsInv(c: Config, bufferSize: uint32, ops: seq<Op>)
    ensures Inv(c, bufferSize, ops, Run(c, bufferSize, ops))
  {
    hide Apply, TimingObjects, MetaObjects;
    if ops != [] {
      hide Inv;
      var pre, op := ops[..|ops| - 1], ops[|ops| - 1];
      RunKeepsInv(c, bufferSize, pre);
      StepKeepsInv(c, bufferSize, pre, op, Run(c, bufferSize, pre));
      assert pre + [op] == ops;
    }
  }

  lemma StepKeepsInv(c: Config, bufferSize: uint32, pre: seq<Op>, op: Op, s: State)
    requires Inv(c, bufferSize, pre, s)
    ensures Inv(c, bufferSize, pre + [op], Apply(s, op))
  {
    hide Select, AllObjects, TimingObjects, MetaObjects;
    OpsSnoc(c, pre, op);
    match op
    case AddTiming(t) =>
      AllObjectsSnoc(c, TimingsOf(pre), t);
      AllObjectsSnoc(c, s.pending, t);
      Regroup(Select(true, s.log), AllObjects(c, s.pending), TimingObjects(c, t));
      SelectAppend(true, s.log, true, TimingObjects(c, t));
      SelectAppend(false, s.log, true, TimingObjects(c, t));
      DrainKeepsInv(s.(pending := s.pending + [t]));
      NothingBuffered(c);
      AppendEmpty(Select(true, Drain(s.(pending := s.pending + [t])).log));
    case AddMeta(m) =>
      SelectAppend(true, s.log, false, MetaObjects(c, m));
      SelectAppend(false, s.log, false, MetaObjects(c, m));
    case Flush =>
      DrainKeepsInv(s);
      NothingBuffered(c);
      AppendEmpty(Select(true, Drain(s).log));
  }

  lemma OpsSnoc(c: Config, pre: seq<Op>, op: Op)
    ensures TimingsOf(pre + [op]) == if op.AddTiming? then TimingsOf(pre) + [op.timing] else TimingsOf(pre)
    ensures MetasOf(c, pre + [op]) == if op.AddMeta? then MetasOf(c, pre) + MetaObjects(c, op.meta) else MetasOf(c, pre)
  {
    hide MetaObjects;
    assert (pre + [op])[..|pre|] == pre;
  }

  lemma NothingBuffered(c: Config)
    ensures AllObjects(c, []) == []
  {
  }

  /** Whatever the buffer size and wherever the flushes fall, the closed file has the same timing objects
      and the same metadata objects, each in the order of the calls, as an unbuffered tracer's. */
  lemma BufferingInvisible(c: Config, bufferSize: uint32, ops: seq<Op>, timing: bool)
    ensures Select(timing, Close(Run(c, bufferSize, ops)).log) == Select(timing, Close(Run(c, 0, ops)).log)
    ensures Select(timing, Close(Run(c, bufferSize, ops)).log)
         == if timing then AllObjects(c, TimingsOf(ops)) else MetasOf(c, ops)
  {
    RunKeepsInv(c, bufferSize, ops);
    RunKeepsInv(c, 0, ops);
    DrainKeepsInv(Run(c, bufferSize, ops));
    DrainKeepsInv(Run(c, 0, ops));
  }

  // ---- The file ----

  function Objects(log: seq<Entry>): seq<Value> {
    seq(|log|, i requires 0 <= i < |log| => log[i].event)
  }

  function Line(v: Value): string { Print(v, ",\n") }

  function Lines(log: seq<Entry>): string { FlatMap(Line, Objects(log)) }

  lemma LinesAppend(log: seq<Entry>, timing: bool, objects: seq<Value>)
    ensures Lines(log + Entries(timing, objects)) == Lines(log) + FlatMap(Line, objects)
  {
    assert Objects(log + Entries(timing, objects)) == Objects(log) + objects;
    FlatMapAppend(Line, Objects(log), objects);
  }

  /** The closed file: the opening bracket, a line per object, and the end-of-file object. */
  function FileText(c: Config, log: seq<Entry>): string {
    "[\n" + (Lines(log) + Print(Eof(c), "\n]\n"))
  }

  lemma {:induction false} LinesAreElements(objects: seq<Value>, last: Value)
    ensures FlatMap(Line, objects) + Print(last, "\n]\n") == PrintElements(objects, last)
  {
    if objects != [] {
      LinesAreElements(objects[1..], last);
      PrintAppend(objects[0], ",\n", PrintElements(objects[1..], last));
      Regroup(Line(objects[0]), FlatMap(Line, objects[1..]), Print(last, "\n]\n"));
    }
  }

  lemma EofClean(c: Config)
    ensures Clean(Eof(c))
  {
    assert CleanFields(Field("tid", Int(0), End));
    assert CleanFields(Field("pid", Int(c.pid), Field("tid", Int(0), End)));
    assert Clean(String("clintercept_eof")) && Clean(String("M"));
  }

  /**
   The closed file is one JSON array that reads back as exactly the objects written followed by the
   end-of-file object, precisely when no string in them needs escaping: the printers do not escape.
   */
  lemma FileReadsBack(c: Config, log: seq<Entry>)
    ensures ReadArray(FileText(c, log)) == Some(Objects(log) + [Eof(c)])
            <==> forall i :: 0 <= i < |log| ==> Clean(log[i].event)
  {
    EofClean(c);
    hide Eof, Print, Clean, ReadArray, PrintElements;
    LinesAreElements(Objects(log), Eof(c));
    ArrayReadsBack(Objects(log), Eof(c));
    assert forall i :: 0 <= i < |log| ==> Objects(log)[i] == log[i].event;
  }

  // ---- Times read back ----

  /** The nanoseconds a microsecond value with three decimals denotes. */
  function Nanoseconds(v: Value): nat
    requires v.Number? && AllDigits(v.fraction)
  {
    1000 * v.whole + Text.Value(v.fraction)
  }

  function FieldOf(fields: Fields, key: string): Option<Value> {
    match fields
    case End => None
    case Field(k, value, rest) => if k == key then Some(value) else FieldOf(rest, key)
  }

  lemma MicroReadsBack(t: uint64)
    requires t <= EXACT_LIMIT
    ensures Micro(t).Number? && AllDigits(Micro(t).fraction) && Nanoseconds(Micro(t)) == t
  {
    PrintsExactly(t);
    Pad3Value(t % 1000);
  }

  lemma StageTimes(pid: uint64, tid: Value, name: string, stage: nat, start: uint64, delta: uint64, id: uint64)
    ensures var v := StageObject(pid, tid, name, stage, start, delta, id);
            v.Object? && FieldOf(v.fields, "ts") == Some(Micro(start)) && FieldOf(v.fields, "dur") == Some(Micro(delta))
  {
    var f2 := Field("dur", Micro(delta), Field("cname", String(Colour(stage)), IdArgs(id)));
    assert FieldOf(f2, "dur") == Some(Micro(delta));
    var f1 := Field("ts", Micro(start), f2);
    assert FieldOf(f1, "ts") == Some(Micro(start)) && FieldOf(f1, "dur") == FieldOf(f2, "dur");
    var f0 := Field("name", String(name + (" " + Suffix(stage))), f1);
    assert FieldOf(f0, "ts") == FieldOf(f1, "ts") && FieldOf(f0, "dur") == FieldOf(f1, "dur");
    var g := Field("tid", tid, f0);
    assert FieldOf(g, "ts") == FieldOf(f0, "ts") && FieldOf(g, "dur") == FieldOf(f0, "dur");
    var h := Field("pid", Int(pid), g);
    assert FieldOf(h, "ts") == FieldOf(g, "ts") && FieldOf(h, "dur") == FieldOf(g, "dur");
  }

  /** `v` is a slice printed with decimal times, which read back as the interval from `start` to `end`. */
  ghost predicate Spans(v: Value, start: nat, end: nat) {
    && v.Object?
    && (exists ts, dur ::
          && FieldOf(v.fields, "ts") == Some(ts) && FieldOf(v.fields, "dur") == Some(dur)
          && ts.Number? && AllDigits(ts.fraction) && dur.Number? && AllDigits(dur.fraction)
          && Nanoseconds(ts) == start && start + Nanoseconds(dur) == end)
  }

  lemma StageSpans(pid: uint64, tid: Value, name: string, stage: nat, start: uint64, end: uint64, id: uint64)
    requires start <= end <= EXACT_LIMIT
    ensures Spans(StageObject(pid, tid, name, stage, start, Minus(end, start), id), start, end)
  {
    hide Micro, StageObject;
    assert Minus(end, start) == end - start;
    StageTimes(pid, tid, name, stage, start, end - start, id);
    MicroReadsBack(start);
    MicroReadsBack(end - start);
  }

  /** For ordered profiling times within the exact range, the three printed slices tile the interval with no gap. */
  lemma StagesTile(pid: uint64, tid: Value, name: string, queued: uint64, submit: uint64,
                   start: uint64, end: uint64, id: uint64)
    requires queued <= submit <= start <= end <= EXACT_LIMIT
    ensures var s := StageObjects(pid, tid, name, queued, submit, start, end, id);
            Spans(s[0], queued, submit) && Spans(s[1], submit, start) && Spans(s[2], start, end)
  {
    hide StageObject;
    StageSpans(pid, tid, name, 0, queued, submit, id);
    StageSpans(pid, tid, name, 1, submit, start, id);
    StageSpans(pid, tid, name, 2, start, end, id);
  }
}
