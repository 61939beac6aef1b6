/** What the objects of a trace say of the calls they were written for, and how far behind the file may be. */
module TraceMeaning {
  import opened Text
  import opened Words
  import opened Json
  import opened Micros
  import opened ChromeTrace

  // ---- Reading an object ----

  /** `v` has the common fields of an event with these values. */
  ghost predicate Says(v: Value, ph: string, pid: nat, tid: Value, name: string) {
    && v.Object?
    && FieldOf(v.fields, "ph") == Some(String(ph))
    && FieldOf(v.fields, "pid") == Some(Number(pid, ""))
    && FieldOf(v.fields, "tid") == Some(tid)
    && FieldOf(v.fields, "name") == Some(String(name))
  }

  /** A slice: a complete event whose printed times are those of `start` and `duration`. */
  ghost predicate IsSlice(v: Value, pid: nat, tid: Value, name: string, start: uint64, duration: uint64) {
    && Says(v, "X", pid, tid, name)
    && FieldOf(v.fields, "ts") == Some(Micro(start)) && FieldOf(v.fields, "dur") == Some(Micro(duration))
  }

  /** A flow event, which the viewer ties to others of the same id. */
  ghost predicate IsFlow(v: Value, ph: string, pid: nat, tid: Value, start: uint64, id: uint64) {
    && Says(v, ph, pid, tid, "Command")
    && FieldOf(v.fields, "cat") == Some(String("Commands"))
    && FieldOf(v.fields, "ts") == Some(Micro(start)) && FieldOf(v.fields, "id") == Some(Number(id, ""))
  }

  /** The arguments of `v` are exactly `key` with this value. */
  ghost predicate HasArg(v: Value, key: string, value: Value) {
    v.Object? && FieldOf(v.fields, "args") == Some(Object(Field(key, value, End)))
  }

  ghost predicate HasNoArgs(v: Value) { v.Object? && FieldOf(v.fields, "args") == None }

  ghost predicate HasColour(v: Value, colour: string) {
    v.Object? && FieldOf(v.fields, "cname") == Some(String(colour))
  }

  /** A printed slice reads back as its interval, when its times are within the exact range. */
  lemma SliceSpans(v: Value, pid: nat, tid: Value, name: string, start: uint64, duration: uint64)
    requires IsSlice(v, pid, tid, name, start, duration) && start <= EXACT_LIMIT && duration <= EXACT_LIMIT
    ensures Spans(v, start, start + duration)
  {
    hide Micro;
    MicroReadsBack(start);
    MicroReadsBack(duration);
  }

  // ---- Field by field ----

  lemma FirstField(key: string, value: Value, rest: Fields)
    ensures FieldOf(Field(key, value, rest), key) == Some(value)
    ensures forall other :: other != key ==> FieldOf(Field(key, value, rest), other) == FieldOf(rest, other)
  {
  }

  lemma EventSays(ph: string, pid: uint64, tid: Value, rest: Fields)
    ensures var v := Event(ph, pid, tid, rest);
            && v.Object? && FieldOf(v.fields, "ph") == Some(String(ph)) && FieldOf(v.fields, "pid") == Some(Number(pid, ""))
            && FieldOf(v.fields, "tid") == Some(tid)
            && forall key :: key !in ["ph", "pid", "tid"] ==> FieldOf(v.fields, key) == FieldOf(rest, key)
  {
    hide FieldOf;
    var f2 := Field("tid", tid, rest);
    var f1 := Field("pid", Number(pid, ""), f2);
    FirstField("tid", tid, rest);
    FirstField("pid", Number(pid, ""), f2);
    FirstField("ph", String(ph), f1);
  }

  lemma SliceSays(pid: uint64, tid: Value, name: string, start: uint64, duration: uint64, rest: Fields)
    requires FieldOf(rest, "ph") == FieldOf(rest, "pid") == FieldOf(rest, "tid") == None
    ensures var v := Event("X", pid, tid, Slice(name, start, duration, rest));
            && IsSlice(v, pid, tid, name, start, duration)
            && FieldOf(v.fields, "args") == FieldOf(rest, "args") && FieldOf(v.fields, "cname") == FieldOf(rest, "cname")
  {
    hide FieldOf, Micro;
    var f2 := Field("dur", Micro(duration), rest);
    var f1 := Field("ts", Micro(start), f2);
    FirstField("dur", Micro(duration), rest);
    FirstField("ts", Micro(start), f2);
    FirstField("name", String(name), f1);
    EventSays("X", pid, tid, Slice(name, start, duration, rest));
  }

  lemma IdArgsSay(id: uint64)
    ensures FieldOf(IdArgs(id), "args") == Some(Object(Field("id", Number(id, ""), End)))
    ensures FieldOf(IdArgs(id), "ph") == FieldOf(IdArgs(id), "pid") == FieldOf(IdArgs(id), "tid") == None
  {
    FirstField("args", Object(Field("id", Number(id, ""), End)), End);
  }

  lemma SliceWithId(pid: uint64, tid: Value, name: string, start: uint64, duration: uint64, id: uint64)
    ensures var v := Event("X", pid, tid, Slice(name, start, duration, IdArgs(id)));
            IsSlice(v, pid, tid, name, start, duration) && HasArg(v, "id", Number(id, ""))
  {
    IdArgsSay(id);
    SliceSays(pid, tid, name, start, duration, IdArgs(id));
    hide FieldOf, IdArgs, Slice, Event;
  }

  lemma FlowSays(ph: string, pid: uint64, tid: Value, start: uint64, id: uint64)
    ensures IsFlow(Flow(ph, pid, tid, start, id), ph, pid, tid, start, id)
  {
    hide FieldOf, Micro, Event;
    var f3 := Field("id", Number(id, ""), End);
    var f2 := Field("ts", Micro(start), f3);
    var f1 := Field("cat", String("Commands"), f2);
    FirstField("id", Number(id, ""), End);
    FirstField("ts", Micro(start), f3);
    FirstField("cat", String("Commands"), f2);
    FirstField("name", String("Command"), f1);
    EventSays(ph, pid, tid, Field("name", String("Command"), f1));
  }

  /** One of the three slices of a command: its stage is in its name and its colour. */
  ghost predicate IsStage(v: Value, pid: nat, tid: Value, name: string, stage: string, colour: string,
                          start: uint64, duration: uint64, id: uint64)
  {
    IsSlice(v, pid, tid, name + " " + stage, start, duration) && HasColour(v, colour) && HasArg(v, "id", Number(id, ""))
  }

  lemma StageSays(pid: uint64, tid: Value, name: string, stage: nat, start: uint64, duration: uint64, id: uint64)
    requires stage < 3
    ensures IsStage(StageObject(pid, tid, name, stage, start, duration, id), pid, tid, name,
                    ["(Queued)", "(Submitted)", "(Execution)"][stage],
                    ["thread_state_runnable", "cq_build_running", "thread_state_iowait"][stage], start, duration, id)
  {
    var rest := Field("cname", String(Colour(stage)), IdArgs(id));
    IdArgsSay(id);
    FirstField("cname", String(Colour(stage)), IdArgs(id));
    SliceSays(pid, tid, name + (" " + Suffix(stage)), start, duration, rest);
    Regroup(name, " ", Suffix(stage));
    hide FieldOf, IdArgs, Slice, Event;
  }

  /** The three slices, from the four times of a command. */
  ghost predicate AreStages(objects: seq<Value>, pid: nat, tid: Value, name: string, queued: uint64, submit: uint64,
                            start: uint64, end: uint64, id: uint64)
  {
    && |objects| == 3
    && IsStage(objects[0], pid, tid, name, "(Queued)", "thread_state_runnable", queued, Difference(submit, queued), id)
    && IsStage(objects[1], pid, tid, name, "(Submitted)", "cq_build_running", submit, Difference(start, submit), id)
    && IsStage(objects[2], pid, tid, name, "(Execution)", "thread_state_iowait", start, Difference(end, start), id)
  }

  /** The time from `a` to `b`, which wraps when they are out of order. */
  ghost function Difference(b: uint64, a: uint64): (d: uint64)
    ensures if a <= b then d == b - a else d == 0x1_0000_0000_0000_0000 + b - a
  {
    if a <= b then b - a else 0x1_0000_0000_0000_0000 + b - a
  }

  lemma MinusIsDifference(b: uint64, a: uint64)
    ensures Minus(b, a) == Difference(b, a)
  {
  }

  lemma StagesSay(pid: uint64, tid: Value, name: string, queued: uint64, submit: uint64, start: uint64, end: uint64, id: uint64)
    ensures AreStages(StageObjects(pid, tid, name, queued, submit, start, end, id), pid, tid, name, queued, submit, start, end, id)
  {
    hide StageObject, IsStage, Minus, Difference;
    MinusIsDifference(submit, queued);
    MinusIsDifference(start, submit);
    MinusIsDifference(end, start);
    StageSays(pid, tid, name, 0, queued, Minus(submit, queued), id);
    StageSays(pid, tid, name, 1, submit, Minus(start, submit), id);
    StageSays(pid, tid, name, 2, start, Minus(end, start), id);
  }

  /**
   What is written for every kind of timing call: a call logged is a slice on its thread's track, device work a slice on
   its queue's or kernel's track, or three; a tag is in the name, an id in the arguments; and with flow events a
   call's slice is followed by the start of a flow, and a device's preceded by its end.
   */
  ghost predicate TimingSays(c: Config, t: Timing, objects: seq<Value>) {
    match t
    case Call(name, threadId, start, delta) =>
      |objects| == 1 && IsSlice(objects[0], c.pid, Number(threadId, ""), name, start, delta) && HasNoArgs(objects[0])
    case CallTag(name, tag, threadId, start, delta) =>
      && |objects| == 1 && HasNoArgs(objects[0])
      && IsSlice(objects[0], c.pid, Number(threadId, ""), name + "( " + tag + " )", start, delta)
    case CallId(name, threadId, start, delta, id) =>
      && |objects| == (if c.flow then 2 else 1)
      && IsSlice(objects[0], c.pid, Number(threadId, ""), name, start, delta) && HasArg(objects[0], "id", Number(id, ""))
      && (c.flow ==> IsFlow(objects[1], "s", c.pid, Number(threadId, ""), start, id))
    case CallTagId(name, tag, threadId, start, delta, id) =>
      && |objects| == (if c.flow then 2 else 1)
      && IsSlice(objects[0], c.pid, Number(threadId, ""), name + "( " + tag + " )", start, delta)
      && HasArg(objects[0], "id", Number(id, ""))
      && (c.flow ==> IsFlow(objects[1], "s", c.pid, Number(threadId, ""), start, id))
    case Device(name, queue, start, end, id) =>
      && |objects| == (if c.flow then 2 else 1)
      && var slice := objects[|objects| - 1];
      && IsSlice(slice, c.pid, Number(queue, "1"), name, start, Difference(end, start)) && HasArg(slice, "id", Number(id, ""))
      && (c.flow ==> IsFlow(objects[0], "f", c.pid, Number(queue, "1"), start, id))
    case DevicePerKernel(name, start, end, id) =>
      && |objects| == (if c.flow then 2 else 1)
      && var slice := objects[|objects| - 1];
      && IsSlice(slice, c.pid, String(name), name, start, Difference(end, start)) && HasArg(slice, "id", Number(id, ""))
      && (c.flow ==> IsFlow(objects[0], "f", c.pid, String(name), start, id))
    case Stages(name, count, queue, queued, submit, start, end, id) =>
      AreStages(objects, c.pid, Number(count, Digits(queue)), name, queued, submit, start, end, id)
    case StagesPerKernel(name, queued, submit, start, end, id) =>
      AreStages(objects, c.pid, String(name), name, queued, submit, start, end, id)
  }

  lemma TimingMeans(c: Config, t: Timing)
    ensures TimingSays(c, t, TimingObjects(c, t))
  {
    hide FieldOf, IsSlice, IsFlow, HasArg, AreStages, Slice, Event, Flow, IdArgs, StageObjects, Minus, Difference, HasNoArgs, Digits;
    match t
    case Call(name, threadId, start, delta) => PlainSlice(c.pid, Number(threadId, ""), name, start, delta);
    case CallTag(name, tag, threadId, start, delta) =>
      TaggedIs(name, tag);
      PlainSlice(c.pid, Number(threadId, ""), Tagged(name, tag), start, delta);
    case CallId(name, threadId, start, delta, id) =>
      SliceWithId(c.pid, Number(threadId, ""), name, start, delta, id);
      FlowSays("s", c.pid, Number(threadId, ""), start, id);
    case CallTagId(name, tag, threadId, start, delta, id) =>
      TaggedIs(name, tag);
      SliceWithId(c.pid, Number(threadId, ""), Tagged(name, tag), start, delta, id);
      FlowSays("s", c.pid, Number(threadId, ""), start, id);
    case Device(name, queue, start, end, id) =>
      MinusIsDifference(end, start);
      SliceWithId(c.pid, Number(queue, "1"), name, start, Minus(end, start), id);
      FlowSays("f", c.pid, Number(queue, "1"), start, id);
    case DevicePerKernel(name, start, end, id) =>
      MinusIsDifference(end, start);
      SliceWithId(c.pid, String(name), name, start, Minus(end, start), id);
      FlowSays("f", c.pid, String(name), start, id);
    case Stages(name, count, queue, queued, submit, start, end, id) =>
      StagesSay(c.pid, Number(count, Digits(queue)), name, queued, submit, start, end, id);
    case StagesPerKernel(name, queued, submit, start, end, id) =>
      StagesSay(c.pid, String(name), name, queued, submit, start, end, id);
  }

  lemma TaggedIs(name: string, tag: string)
    ensures Tagged(name, tag) == name + "( " + tag + " )"
  {
  }

  lemma PlainSlice(pid: uint64, tid: Value, name: string, start: uint64, delta: uint64)
    ensures var v := Event("X", pid, tid, Slice(name, start, delta, End));
            IsSlice(v, pid, tid, name, start, delta) && HasNoArgs(v)
  {
    SliceSays(pid, tid, name, start, delta, End);
    assert FieldOf(End, "args") == None;
    hide FieldOf, Slice, Event;
  }

  /** A device slice spans its start and end, and a call's slice its start and the end of its duration. */
  lemma TimingSpans(c: Config, t: Timing)
    requires t.Call? || t.CallTag? || t.CallId? || t.CallTagId? ==> t.start <= EXACT_LIMIT && t.delta <= EXACT_LIMIT
    requires t.Device? || t.DevicePerKernel? || t.Stages? || t.StagesPerKernel? ==> t.start <= t.end <= EXACT_LIMIT
    requires t.Stages? || t.StagesPerKernel? ==> t.queued <= t.submit <= t.start
    ensures var objects := TimingObjects(c, t);
            match t
            case Device(_, _, start, end, _) => objects != [] && Spans(objects[|objects| - 1], start, end)
            case DevicePerKernel(_, start, end, _) => objects != [] && Spans(objects[|objects| - 1], start, end)
            case Stages(_, _, _, queued, submit, start, end, _) =>
              |objects| == 3 && Spans(objects[0], queued, submit) && Spans(objects[1], submit, start) && Spans(objects[2], start, end)
            case StagesPerKernel(_, queued, submit, start, end, _) =>
              |objects| == 3 && Spans(objects[0], queued, submit) && Spans(objects[1], submit, start) && Spans(objects[2], start, end)
            case _ => objects != [] && Spans(objects[0], t.start, t.start + t.delta)
  {
    hide FieldOf, IsSlice, IsFlow, HasArg, HasColour, TimingObjects, Spans, HasNoArgs, Digits;
    TimingMeans(c, t);
    var v := TimingObjects(c, t);
    match t
    case Call(name, threadId, start, delta) => SliceSpans(v[0], c.pid, Number(threadId, ""), name, start, delta);
    case CallTag(name, tag, threadId, start, delta) =>
      SliceSpans(v[0], c.pid, Number(threadId, ""), name + "( " + tag + " )", start, delta);
    case CallId(name, threadId, start, delta, _) => SliceSpans(v[0], c.pid, Number(threadId, ""), name, start, delta);
    case CallTagId(name, tag, threadId, start, delta, _) =>
      SliceSpans(v[0], c.pid, Number(threadId, ""), name + "( " + tag + " )", start, delta);
    case Device(name, queue, start, end, _) => SliceSpans(v[|v| - 1], c.pid, Number(queue, "1"), name, start, end - start);
    case DevicePerKernel(name, start, end, _) => SliceSpans(v[|v| - 1], c.pid, String(name), name, start, end - start);
    case Stages(name, count, queue, queued, submit, start, end, _) =>
      SliceSpans(v[0], c.pid, Number(count, Digits(queue)), name + " " + "(Queued)", queued, submit - queued);
      SliceSpans(v[1], c.pid, Number(count, Digits(queue)), name + " " + "(Submitted)", submit, start - submit);
      SliceSpans(v[2], c.pid, Number(count, Digits(queue)), name + " " + "(Execution)", start, end - start);
    case StagesPerKernel(name, queued, submit, start, end, _) =>
      SliceSpans(v[0], c.pid, String(name), name + " " + "(Queued)", queued, submit - queued);
      SliceSpans(v[1], c.pid, String(name), name + " " + "(Submitted)", submit, start - submit);
      SliceSpans(v[2], c.pid, String(name), name + " " + "(Execution)", start, end - start);
  }

  // ---- Metadata ----

  /** What is written for every kind of metadata call. */
  ghost predicate MetaSays(c: Config, m: Meta, objects: seq<Value>) {
    match m
    case ProcessName(name) =>
      |objects| == 1 && Says(objects[0], "M", c.pid, Number(0, ""), "process_name") && HasArg(objects[0], "name", String(name))
    case ThreadName(threadId, number) =>
      && |objects| == 2
      && Says(objects[0], "M", c.pid, Number(threadId, ""), "thread_name")
      && HasArg(objects[0], "name", String("Host Thread " + Digits(threadId)))
      && Says(objects[1], "M", c.pid, Number(threadId, ""), "thread_sort_index")
      && HasArg(objects[1], "sort_index", String(Digits((number + 10_000) % 0x1_0000_0000)))
    case StartTime(start) =>
      && |objects| == 1 && Says(objects[0], "M", c.pid, Number(0, ""), "clintercept_start_time")
      && HasArg(objects[0], "start_time", Number(start, ""))
    case QueueName(queue, name) =>
      && |objects| == 2
      && Says(objects[0], "M", c.pid, Number(queue, "1"), "thread_name") && HasArg(objects[0], "name", String(name))
      && Says(objects[1], "M", c.pid, Number(queue, "1"), "thread_sort_index")
      && HasArg(objects[1], "sort_index", String(Digits(queue)))
  }

  lemma MetaEventSays(name: string, pid: uint64, tid: Value, rest: Fields)
    ensures var v := MetaEvent(name, pid, tid, rest);
            Says(v, "M", pid, tid, name) && FieldOf(v.fields, "args") == FieldOf(rest, "args")
  {
    hide FieldOf;
    var f2 := Field("tid", tid, rest);
    var f1 := Field("pid", Number(pid, ""), f2);
    FirstField("tid", tid, rest);
    FirstField("pid", Number(pid, ""), f2);
    FirstField("name", String(name), f1);
    FirstField("ph", String("M"), Field("name", String(name), f1));
  }

  lemma MetaWithArg(name: string, pid: uint64, tid: Value, key: string, value: Value)
    ensures var v := MetaEvent(name, pid, tid, Args(key, value)); Says(v, "M", pid, tid, name) && HasArg(v, key, value)
  {
    MetaEventSays(name, pid, tid, Args(key, value));
    FirstField("args", Object(Field(key, value, End)), End);
    hide FieldOf, MetaEvent;
  }

  lemma MetaMeans(c: Config, m: Meta)
    ensures MetaSays(c, m, MetaObjects(c, m))
  {
    hide Says, HasArg, MetaEvent, Args, Digits;
    match m
    case ProcessName(name) => MetaWithArg("process_name", c.pid, Number(0, ""), "name", String(name));
    case ThreadName(threadId, number) =>
      MetaWithArg("thread_name", c.pid, Number(threadId, ""), "name", String("Host Thread " + Digits(threadId)));
      MetaWithArg("thread_sort_index", c.pid, Number(threadId, ""), "sort_index",
                  String(Digits((number + 10_000) % 0x1_0000_0000)));
    case StartTime(start) => MetaWithArg("clintercept_start_time", c.pid, Number(0, ""), "start_time", Number(start, ""));
    case QueueName(queue, name) =>
      MetaWithArg("thread_name", c.pid, Number(queue, "1"), "name", String(name));
      MetaWithArg("thread_sort_index", c.pid, Number(queue, "1"), "sort_index", String(Digits(queue)));
  }

  lemma EofMeans(c: Config)
    ensures Says(Eof(c), "M", c.pid, Number(0, ""), "clintercept_eof") && HasNoArgs(Eof(c))
  {
    MetaEventSays("clintercept_eof", c.pid, Number(0, ""), End);
    hide MetaEvent;
  }

  // ---- How far behind the file is ----

  /** The timing calls since the last explicit flush, in order. */
  function SinceFlush(ops: seq<Op>): seq<Timing> {
    if ops == [] || ops[|ops| - 1].Flush? then []
    else SinceFlush(ops[..|ops| - 1]) + (if ops[|ops| - 1].AddTiming? then [ops[|ops| - 1].timing] else [])
  }

  /** The part of `n` that is in full buffers. */
  function Whole(n: nat, size: nat): (w: nat)
    requires size > 0
    ensures w <= n < w + size
  {
    n - n % size
  }

  /**
   What is still buffered: the calls since the last flush without the full buffers among them, so the file is
   written in whole buffers and at flushes, and at no other time.
   */
  lemma {:induction false} BufferedAreLatest(c: Config, bufferSize: uint32, ops: seq<Op>)
    requires bufferSize > 0
    ensures var since := SinceFlush(ops); Run(c, bufferSize, ops).pending == since[Whole(|since|, bufferSize)..]
  {
    hide TimingObjects, MetaObjects, Whole;
    if ops != [] {
      var pre, op := ops[..|ops| - 1], ops[|ops| - 1];
      BufferedAreLatest(c, bufferSize, pre);
      RunShape(c, bufferSize, pre);
      if op.AddTiming? {
        var before := SinceFlush(pre);
        var full := Whole(|before|, bufferSize);
        NextBuffer(|before|, bufferSize);
        assert (before + [op.timing])[full..] == before[full..] + [op.timing];
      }
    }
  }

  lemma {:induction false} RunShape(c: Config, bufferSize: uint32, ops: seq<Op>)
    ensures Run(c, bufferSize, ops).bufferSize == bufferSize && Run(c, bufferSize, ops).config == c
  {
    hide TimingObjects, MetaObjects;
    if ops != [] {
      RunShape(c, bufferSize, ops[..|ops| - 1]);
    }
  }

  lemma NextBuffer(n: nat, size: nat)
    requires size > 0
    ensures Whole(n + 1, size) == if n + 1 == Whole(n, size) + size then n + 1 else Whole(n, size)
  {
    var q, r := n / size, n % size;
    assert n == size * q + r;
    if r + 1 == size {
      assert n + 1 == size * (q + 1) + 0;
      RemainderIs(n + 1, size, q + 1, 0);
    } else {
      RemainderIs(n + 1, size, q, r + 1);
    }
  }

  lemma RemainderIs(n: nat, size: nat, q: nat, r: nat)
    requires r < size && n == size * q + r
    ensures n % size == r
  {
    var p := n / size;
    assert size * (p - q) == r - n % size;
    if p != q {
      Apart(size, p - q);
    }
  }

  lemma Apart(size: nat, d: int)
    ensures d >= 1 ==> size * d >= size
    ensures d <= -1 ==> size * d + size <= 0
  {
    if d >= 1 {
      assert size * d == size * (d - 1) + size;
    } else if d <= -1 {
      assert size * d == size * (d + 1) - size;
    }
  }
}
