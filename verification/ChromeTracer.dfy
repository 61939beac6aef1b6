/**
 The tracer: eight kinds of timing record, printed at once or kept in a write-behind buffer whose records
 overlay two layouts in one piece of memory, and metadata that is always printed at once.
 */
module ChromeTracer {
  import opened Text
  import opened Words
  import opened Json
  import opened Micros
  import opened ChromeTrace
  import opened TraceLines
  import opened TraceFormats

  // ---- Records ----

  datatype RecordType =
    | CallLogging | CallLoggingTag | CallLoggingId | CallLoggingTagId
    | DeviceTiming | DeviceTimingPerKernel | DeviceTimingInStages | DeviceTimingInStagesPerKernel

  /**
   The union in a record, as the 32-bit words both layouts share. Call logging: thread id at word 0,
   start 2, delta 4, id 6. Device timing: count at word 0, queue 1, queued 2, submit 4, start 6, end 8, id 10.
   */
  type Memory = m: seq<uint32> | |m| == 12 witness [0, 0, 0, 0, 0, 0, 0, 0, 0, 0, 0, 0]

  datatype Record = Record(kind: RecordType, name: string, tag: string, memory: Memory)

  function Load(m: Memory, word: nat): uint64
    requires word < 11
  {
    var hi: nat := m[word + 1];
    m[word] + TWO32 * hi
  }

  function Store(m: Memory, word: nat, v: uint64): (r: Memory)
    requires word < 11
    ensures Load(r, word) == v
    ensures forall i :: 0 <= i < 12 && i != word && i != word + 1 ==> r[i] == m[i]
  {
    m[word := v % TWO32][word + 1 := v / TWO32]
  }

  /** The call a record stands for: what the flush loop reads back out of it. */
  function Decoded(rec: Record): Timing {
    var m := rec.memory;
    match rec.kind
    case CallLogging => Call(rec.name, Load(m, 0), Load(m, 2), Load(m, 4))
    case CallLoggingTag => CallTag(rec.name, rec.tag, Load(m, 0), Load(m, 2), Load(m, 4))
    case CallLoggingId => CallId(rec.name, Load(m, 0), Load(m, 2), Load(m, 4), Load(m, 6))
    case CallLoggingTagId => CallTagId(rec.name, rec.tag, Load(m, 0), Load(m, 2), Load(m, 4), Load(m, 6))
    case DeviceTiming => Device(rec.name, m[1], Load(m, 6), Load(m, 8), Load(m, 10))
    case DeviceTimingPerKernel => DevicePerKernel(rec.name, Load(m, 6), Load(m, 8), Load(m, 10))
    case DeviceTimingInStages =>
      Stages(rec.name, m[0], m[1], Load(m, 2), Load(m, 4), Load(m, 6), Load(m, 8), Load(m, 10))
    case DeviceTimingInStagesPerKernel =>
      StagesPerKernel(rec.name, Load(m, 2), Load(m, 4), Load(m, 6), Load(m, 8), Load(m, 10))
  }

  function DecodedAll(recs: seq<Record>): seq<Timing> {
    seq(|recs|, i requires 0 <= i < |recs| => Decoded(recs[i]))
  }

  class Tracer {
    var addFlowEvents: bool
    var processId: uint64
    var bufferSize: uint32
    var traceFile: string
    var recordBuffer: seq<Record>
    /** The objects written, with the class of call each came from. */
    ghost var log: seq<Entry>
    /** The calls since the file was opened. */
    ghost var ops: seq<Op>

    ghost function Cfg(): Config
      reads this
    {
      Config(processId, addFlowEvents)
    }

    ghost function Abs(): State
      reads this
    {
      State(Cfg(), bufferSize, log, DecodedAll(recordBuffer))
    }

    /** The open file: a bracket and a line for every object in the log. */
    ghost predicate Consistent()
      reads this
    {
      traceFile == "[\n" + Lines(log)
    }

    /** And the tracer is in the state that the calls so far lead to. */
    ghost predicate Valid()
      reads this
    {
      Consistent() && Abs() == Run(Cfg(), bufferSize, ops)
    }

    constructor ()
      ensures traceFile == "" && recordBuffer == [] && bufferSize == 0
    {
      addFlowEvents, processId, bufferSize, traceFile, recordBuffer := false, 0, 0, "", [];
      log, ops := [], [];
    }

    method Init(pid: uint64, size: uint32, flow: bool)
      requires traceFile == "" && recordBuffer == []
      modifies this
      ensures Valid() && Cfg() == Config(pid, flow) && bufferSize == size && ops == []
    {
      processId, bufferSize, addFlowEvents := pid, size, flow;
      traceFile := traceFile + "[\n";
      log, ops := [], [];
      assert DecodedAll(recordBuffer) == [];
    }

    /** Appends one printed line. */
    method Write(text: string, ghost timing: bool, ghost event: Value)
      requires Consistent() && text == Line(event)
      modifies `traceFile, `log
      ensures Consistent() && log == old(log) + Entries(timing, [event])
    {
      ghost var e := Entries(timing, [event]);
      LinesOfOne(log, timing, event);
      Regroup("[\n", Lines(log), text);
      traceFile := traceFile + text;
      log := log + e;
    }

    // ---- Metadata, never buffered ----

    method AddProcessMetadata(processName: string)
      requires Valid()
      modifies `traceFile, `log, `ops
      ensures Valid() && ops == old(ops) + [AddMeta(ProcessName(processName))]
    {
      hide Line, Lines, MetaEvent, ProcessNameLine, Run;
      ProcessNameLineIs(processId, processName);
      Write(ProcessNameLine(processId, processName),
            false, MetaEvent("process_name", processId, Int(0), Args("name", String(processName))));
      ghost var op := AddMeta(ProcessName(processName));
      RunSnoc(Cfg(), bufferSize, ops, op);
      ops := ops + [op];
    }

    method AddThreadMetadata(threadId: uint64, threadNumber: uint32)
      requires Valid()
      modifies `traceFile, `log, `ops
      ensures Valid() && ops == old(ops) + [AddMeta(ThreadName(threadId, threadNumber))]
    {
      hide Line, Lines, MetaEvent, ThreadNameLine, ThreadIndexLine, Run;
      var index := (threadNumber + 10000) % TWO32;
      ThreadNameLineIs(processId, threadId);
      Write(ThreadNameLine(processId, threadId),
            false, MetaEvent("thread_name", processId, Int(threadId),
                             Args("name", String("Host Thread " + Digits(threadId)))));
      ThreadIndexLineIs(processId, threadId, index);
      Write(ThreadIndexLine(processId, threadId, index),
            false, MetaEvent("thread_sort_index", processId, Int(threadId), Args("sort_index", String(Digits(index)))));
      ghost var op := AddMeta(ThreadName(threadId, threadNumber));
      RunSnoc(Cfg(), bufferSize, ops, op);
      ops := ops + [op];
    }

    method AddStartTimeMetadata(startTime: uint64)
      requires Valid()
      modifies `traceFile, `log, `ops
      ensures Valid() && ops == old(ops) + [AddMeta(StartTime(startTime))]
    {
      hide Line, Lines, MetaEvent, StartTimeLine, Run;
      StartTimeLineIs(processId, startTime);
      Write(StartTimeLine(processId, startTime),
            false, MetaEvent("clintercept_start_time", processId, Int(0), Args("start_time", Int(startTime))));
      ghost var op := AddMeta(StartTime(startTime));
      RunSnoc(Cfg(), bufferSize, ops, op);
      ops := ops + [op];
    }

    method AddQueueMetadata(queueNumber: uint32, queueName: string)
      requires Valid()
      modifies `traceFile, `log, `ops
      ensures Valid() && ops == old(ops) + [AddMeta(QueueName(queueNumber, queueName))]
    {
      hide Line, Lines, MetaEvent, QueueNameLine, QueueIndexLine, Run;
      QueueNameLineIs(processId, queueNumber, queueName);
      Write(QueueNameLine(processId, queueNumber, queueName),
            false, MetaEvent("thread_name", processId, Number(queueNumber, "1"), Args("name", String(queueName))));
      QueueIndexLineIs(processId, queueNumber);
      Write(QueueIndexLine(processId, queueNumber),
            false, MetaEvent("thread_sort_index", processId, Number(queueNumber, "1"),
                             Args("sort_index", String(Digits(queueNumber)))));
      ghost var op := AddMeta(QueueName(queueNumber, queueName));
      RunSnoc(Cfg(), bufferSize, ops, op);
      ops := ops + [op];
    }

    // ---- Adding records ----
    // `memory` is whatever the new record's union holds before its fields are set. No contract mentions it:
    // what reaches the file does not depend on it.

    /** Keeps a filled record, and empties the buffer when it is full. */
    method Buffer(rec: Record, ghost t: Timing)
      requires Consistent() && bufferSize != 0 && Decoded(rec) == t
      modifies this`recordBuffer, this`traceFile, this`log
      ensures Consistent() && Abs() == Apply(old(Abs()), AddTiming(t))
    {
      hide Decoded, TimingObjects, Lines;
      recordBuffer := recordBuffer + [rec];
      assert DecodedAll(recordBuffer) == old(DecodedAll(recordBuffer)) + [t];
      CheckFlushRecords();
    }

    method CheckFlushRecords()
      requires Consistent() && bufferSize != 0
      modifies `recordBuffer, `traceFile, `log
      ensures Consistent() && Abs() == if |old(recordBuffer)| >= bufferSize then Drain(old(Abs())) else old(Abs())
    {
      if |recordBuffer| >= bufferSize {
        FlushRecords();
      }
    }

    method AddCallLogging(name: string, threadId: uint64, startTime: uint64, delta: uint64, memory: Memory)
      requires Valid()
      modifies `recordBuffer, `traceFile, `log, `ops
      ensures Valid() && ops == old(ops) + [AddTiming(Call(name, threadId, startTime, delta))]
    {
      hide TimingObjects, Lines, Run;
      if bufferSize == 0 {
        WriteCallLogging(name, threadId, startTime, delta);
      } else {
        var m := memory;
        m := Store(m, 0, threadId);
        m := Store(m, 2, startTime);
        m := Store(m, 4, delta);
        Buffer(Record(CallLogging, name, "", m), Call(name, threadId, startTime, delta));
      }
      ghost var op := AddTiming(Call(name, threadId, startTime, delta));
      RunSnoc(Cfg(), bufferSize, ops, op);
      ops := ops + [op];
    }

    method AddCallLoggingTag(name: string, tag: string, threadId: uint64, startTime: uint64, delta: uint64, memory: Memory)
      requires Valid()
      modifies `recordBuffer, `traceFile, `log, `ops
      ensures Valid() && ops == old(ops) + [AddTiming(CallTag(name, tag, threadId, startTime, delta))]
    {
      hide TimingObjects, Lines, Run;
      if bufferSize == 0 {
        WriteCallLoggingTag(name, tag, threadId, startTime, delta);
      } else {
        var m := memory;
        m := Store(m, 0, threadId);
        m := Store(m, 2, startTime);
        m := Store(m, 4, delta);
        Buffer(Record(CallLoggingTag, name, tag, m), CallTag(name, tag, threadId, startTime, delta));
      }
      ghost var op := AddTiming(CallTag(name, tag, threadId, startTime, delta));
      RunSnoc(Cfg(), bufferSize, ops, op);
      ops := ops + [op];
    }

    method AddCallLoggingId(name: string, threadId: uint64, startTime: uint64, delta: uint64, id: uint64,
                               memory: Memory)
      requires Valid()
      modifies `recordBuffer, `traceFile, `log, `ops
      ensures Valid() && ops == old(ops) + [AddTiming(CallId(name, threadId, startTime, delta, id))]
    {
      hide TimingObjects, Lines, Run;
      if bufferSize == 0 {
        WriteCallLoggingId(name, threadId, startTime, delta, id);
      } else {
        var m := memory;
        m := Store(m, 0, threadId);
        m := Store(m, 2, startTime);
        m := Store(m, 4, delta);
        m := Store(m, 6, id);
        Buffer(Record(CallLoggingId, name, "", m), CallId(name, threadId, startTime, delta, id));
      }
      ghost var op := AddTiming(CallId(name, threadId, startTime, delta, id));
      RunSnoc(Cfg(), bufferSize, ops, op);
      ops := ops + [op];
    }

    method AddCallLoggingTagId(name: string, tag: string, threadId: uint64, startTime: uint64, delta: uint64, id: uint64,
                               memory: Memory)
      requires Valid()
      modifies `recordBuffer, `traceFile, `log, `ops
      ensures Valid() && ops == old(ops) + [AddTiming(CallTagId(name, tag, threadId, startTime, delta, id))]
    {
      hide TimingObjects, Lines, Run;
      if bufferSize == 0 {
        WriteCallLoggingTagId(name, tag, threadId, startTime, delta, id);
      } else {
        var m := memory;
        m := Store(m, 0, threadId);
        m := Store(m, 2, startTime);
        m := Store(m, 4, delta);
        m := Store(m, 6, id);
        Buffer(Record(CallLoggingTagId, name, tag, m), CallTagId(name, tag, threadId, startTime, delta, id));
      }
      ghost var op := AddTiming(CallTagId(name, tag, threadId, startTime, delta, id));
      RunSnoc(Cfg(), bufferSize, ops, op);
      ops := ops + [op];
    }

    method AddDeviceTiming(name: string, queueNumber: uint32, startTime: uint64, endTime: uint64, id: uint64, memory: Memory)
      requires Valid()
      modifies `recordBuffer, `traceFile, `log, `ops
      ensures Valid() && ops == old(ops) + [AddTiming(Device(name, queueNumber, startTime, endTime, id))]
    {
      hide TimingObjects, Lines, Run;
      if bufferSize == 0 {
        WriteDeviceTiming(name, queueNumber, startTime, endTime, id);
      } else {
        var m := memory;
        m := m[1 := queueNumber];
        m := Store(m, 6, startTime);
        m := Store(m, 8, endTime);
        m := Store(m, 10, id);
        Buffer(Record(DeviceTiming, name, "", m), Device(name, queueNumber, startTime, endTime, id));
      }
      ghost var op := AddTiming(Device(name, queueNumber, startTime, endTime, id));
      RunSnoc(Cfg(), bufferSize, ops, op);
      ops := ops + [op];
    }

    method AddDeviceTimingPerKernel(name: string, startTime: uint64, endTime: uint64, id: uint64, memory: Memory)
      requires Valid()
      modifies `recordBuffer, `traceFile, `log, `ops
      ensures Valid() && ops == old(ops) + [AddTiming(DevicePerKernel(name, startTime, endTime, id))]
    {
      hide TimingObjects, Lines, Run;
      if bufferSize == 0 {
        WriteDeviceTimingPerKernel(name, startTime, endTime, id);
      } else {
        var m := memory;
        m := Store(m, 6, startTime);
        m := Store(m, 8, endTime);
        m := Store(m, 10, id);
        Buffer(Record(DeviceTimingPerKernel, name, "", m), DevicePerKernel(name, startTime, endTime, id));
      }
      ghost var op := AddTiming(DevicePerKernel(name, startTime, endTime, id));
      RunSnoc(Cfg(), bufferSize, ops, op);
      ops := ops + [op];
    }

    method AddDeviceTimingInStages(name: string, count: uint32, queueNumber: uint32, queuedTime: uint64,
                                   submitTime: uint64, startTime: uint64, endTime: uint64, id: uint64, memory: Memory)
      requires Valid()
      modifies `recordBuffer, `traceFile, `log, `ops
      ensures Valid()
      ensures ops == old(ops) + [AddTiming(Stages(name, count, queueNumber, queuedTime, submitTime, startTime, endTime, id))]
    {
      hide TimingObjects, Lines, Run;
      if bufferSize == 0 {
        WriteDeviceTimingInStages(name, count, queueNumber, queuedTime, submitTime, startTime, endTime, id);
      } else {
        var m := memory;
        m := m[0 := count];
        m := m[1 := queueNumber];
        m := Store(m, 2, queuedTime);
        m := Store(m, 4, submitTime);
        m := Store(m, 6, startTime);
        m := Store(m, 8, endTime);
        m := Store(m, 10, id);
        Buffer(Record(DeviceTimingInStages, name, "", m),
               Stages(name, count, queueNumber, queuedTime, submitTime, startTime, endTime, id));
      }
      ghost var op := AddTiming(Stages(name, count, queueNumber, queuedTime, submitTime, startTime, endTime, id));
      RunSnoc(Cfg(), bufferSize, ops, op);
      ops := ops + [op];
    }

    method AddDeviceTimingInStagesPerKernel(name: string, queuedTime: uint64, submitTime: uint64, startTime: uint64,
                                            endTime: uint64, id: uint64, memory: Memory)
      requires Valid()
      modifies `recordBuffer, `traceFile, `log, `ops
      ensures Valid() && ops == old(ops) + [AddTiming(StagesPerKernel(name, queuedTime, submitTime, startTime, endTime, id))]
    {
      hide TimingObjects, Lines, Run;
      if bufferSize == 0 {
        WriteDeviceTimingInStagesPerKernel(name, queuedTime, submitTime, startTime, endTime, id);
      } else {
        var m := memory;
        m := Store(m, 2, queuedTime);
        m := Store(m, 4, submitTime);
        m := Store(m, 6, startTime);
        m := Store(m, 8, endTime);
        m := Store(m, 10, id);
        Buffer(Record(DeviceTimingInStagesPerKernel, name, "", m),
               StagesPerKernel(name, queuedTime, submitTime, startTime, endTime, id));
      }
      ghost var op := AddTiming(StagesPerKernel(name, queuedTime, submitTime, startTime, endTime, id));
      RunSnoc(Cfg(), bufferSize, ops, op);
      ops := ops + [op];
    }

    method FlushBuffer()
      requires Valid()
      modifies `recordBuffer, `traceFile, `log, `ops
      ensures Valid() && ops == old(ops) + [Flush]
    {
      hide Run;
      if |recordBuffer| > 0 {
        FlushRecords();
      } else {
        DrainNothing(Abs());
      }
      RunSnoc(Cfg(), bufferSize, ops, Flush);
      ops := ops + [Flush];
    }

    /** The destructor: flush, then the last object and the closing bracket. */
    method Close()
      requires Valid()
      modifies `recordBuffer, `traceFile, `log
      ensures traceFile == FileText(Cfg(), ChromeTrace.Close(Run(Cfg(), bufferSize, ops)).log)
    {
      if |recordBuffer| > 0 {
        FlushRecords();
      } else {
        DrainNothing(Abs());
      }
      hide Print, Eof, Lines;
      EofText(Cfg());
      Regroup("[\n", Lines(log), Print(Eof(Cfg()), "\n]\n"));
      traceFile := traceFile + ("{\"ph\":\"M\",\"name\":\"clintercept_eof\",\"pid\":" + (Digits(processId) + ",\"tid\":0}\n]\n"));
    }

    /** Prints the buffered records in order and empties the buffer. */
    method FlushRecords()
      requires Consistent()
      modifies `recordBuffer, `traceFile, `log
      ensures Consistent() && Abs() == Drain(old(Abs()))
    {
      hide Lines, TimingObjects;
      for i := 0 to |recordBuffer|
        invariant Consistent() && recordBuffer == old(recordBuffer)
        invariant log == old(log) + Entries(true, AllObjects(Cfg(), DecodedAll(recordBuffer[..i])))
      {
        var rec := recordBuffer[i];
        var m := rec.memory;
        match rec.kind {
          case CallLogging => WriteCallLogging(rec.name, Load(m, 0), Load(m, 2), Load(m, 4));
          case CallLoggingTag => WriteCallLoggingTag(rec.name, rec.tag, Load(m, 0), Load(m, 2), Load(m, 4));
          case CallLoggingId => WriteCallLoggingId(rec.name, Load(m, 0), Load(m, 2), Load(m, 4), Load(m, 6));
          case CallLoggingTagId =>
            WriteCallLoggingTagId(rec.name, rec.tag, Load(m, 0), Load(m, 2), Load(m, 4), Load(m, 6));
          case DeviceTiming => WriteDeviceTiming(rec.name, m[1], Load(m, 6), Load(m, 8), Load(m, 10));
          case DeviceTimingPerKernel => WriteDeviceTimingPerKernel(rec.name, Load(m, 6), Load(m, 8), Load(m, 10));
          case DeviceTimingInStages =>
            WriteDeviceTimingInStages(rec.name, m[0], m[1], Load(m, 2), Load(m, 4), Load(m, 6), Load(m, 8), Load(m, 10));
          case DeviceTimingInStagesPerKernel =>
            WriteDeviceTimingInStagesPerKernel(rec.name, Load(m, 2), Load(m, 4), Load(m, 6), Load(m, 8), Load(m, 10));
        }
        OneMoreRecord(Cfg(), old(log), recordBuffer, i);
      }
      assert recordBuffer[..|recordBuffer|] == recordBuffer;
      recordBuffer := [];
    }

    // ---- Printing ----

    method WriteCallLogging(name: string, threadId: uint64, startTime: uint64, delta: uint64)
      requires Consistent()
      modifies `traceFile, `log
      ensures Consistent() && log == old(log) + Entries(true, TimingObjects(Cfg(), Call(name, threadId, startTime, delta)))
    {
      hide Line, Lines, Event, Slice, CallLine;
      CallLineIs(processId, threadId, name, startTime, delta);
      Write(CallLine(processId, threadId, name, startTime, delta),
            true, Event("X", processId, Int(threadId), Slice(name, startTime, delta, End)));
    }

    method WriteCallLoggingTag(name: string, tag: string, threadId: uint64, startTime: uint64, delta: uint64)
      requires Consistent()
      modifies `traceFile, `log
      ensures Consistent()
      ensures log == old(log) + Entries(true, TimingObjects(Cfg(), CallTag(name, tag, threadId, startTime, delta)))
    {
      hide Line, Lines, Event, Slice, CallTagLine;
      CallTagLineIs(processId, threadId, name, tag, startTime, delta);
      Write(CallTagLine(processId, threadId, name, tag, startTime, delta),
            true, Event("X", processId, Int(threadId), Slice(Tagged(name, tag), startTime, delta, End)));
    }

    method WriteCallLoggingId(name: string, threadId: uint64, startTime: uint64, delta: uint64, id: uint64)
      requires Consistent()
      modifies `traceFile, `log
      ensures Consistent()
      ensures log == old(log) + Entries(true, TimingObjects(Cfg(), CallId(name, threadId, startTime, delta, id)))
    {
      hide Line, Lines, Event, Slice, Flow, CallIdLine, FlowStartLine;
      CallIdLineIs(processId, threadId, name, startTime, delta, id);
      Write(CallIdLine(processId, threadId, name, startTime, delta, id),
            true, Event("X", processId, Int(threadId), Slice(name, startTime, delta, IdArgs(id))));
      if addFlowEvents {
        FlowStartLineIs(processId, threadId, startTime, id);
        Write(FlowStartLine(processId, threadId, startTime, id),
              true, Flow("s", processId, Int(threadId), startTime, id));
      }
    }

    method WriteCallLoggingTagId(name: string, tag: string, threadId: uint64, startTime: uint64, delta: uint64, id: uint64)
      requires Consistent()
      modifies `traceFile, `log
      ensures Consistent()
      ensures log == old(log) + Entries(true, TimingObjects(Cfg(), CallTagId(name, tag, threadId, startTime, delta, id)))
    {
      hide Line, Lines, Event, Slice, Flow, CallTagIdLine, FlowStartLine;
      CallTagIdLineIs(processId, threadId, name, tag, startTime, delta, id);
      Write(CallTagIdLine(processId, threadId, name, tag, startTime, delta, id),
            true, Event("X", processId, Int(threadId), Slice(Tagged(name, tag), startTime, delta, IdArgs(id))));
      if addFlowEvents {
        FlowStartLineIs(processId, threadId, startTime, id);
        Write(FlowStartLine(processId, threadId, startTime, id),
              true, Flow("s", processId, Int(threadId), startTime, id));
      }
    }

    method WriteDeviceTiming(name: string, queueNumber: uint32, startTime: uint64, endTime: uint64, id: uint64)
      requires Consistent()
      modifies `traceFile, `log
      ensures Consistent()
      ensures log == old(log) + Entries(true, TimingObjects(Cfg(), Device(name, queueNumber, startTime, endTime, id)))
    {
      hide Line, Lines, Event, Slice, Flow, QueueLine, FlowQueueLine;
      if addFlowEvents {
        FlowQueueLineIs(processId, queueNumber, startTime, id);
        Write(FlowQueueLine(processId, queueNumber, startTime, id),
              true, Flow("f", processId, Number(queueNumber, "1"), startTime, id));
      }
      var delta := Minus(endTime, startTime);
      QueueLineIs(processId, queueNumber, name, startTime, delta, id);
      Write(QueueLine(processId, queueNumber, name, startTime, delta, id),
            true, Event("X", processId, Number(queueNumber, "1"), Slice(name, startTime, delta, IdArgs(id))));
    }

    method WriteDeviceTimingPerKernel(name: string, startTime: uint64, endTime: uint64, id: uint64)
      requires Consistent()
      modifies `traceFile, `log
      ensures Consistent()
      ensures log == old(log) + Entries(true, TimingObjects(Cfg(), DevicePerKernel(name, startTime, endTime, id)))
    {
      hide Line, Lines, Event, Slice, Flow, KernelLine, FlowKernelLine;
      if addFlowEvents {
        FlowKernelLineIs(processId, name, startTime, id);
        Write(FlowKernelLine(processId, name, startTime, id), true, Flow("f", processId, String(name), startTime, id));
      }
      var delta := Minus(endTime, startTime);
      KernelLineIs(processId, name, startTime, delta, id);
      Write(KernelLine(processId, name, startTime, delta, id),
            true, Event("X", processId, String(name), Slice(name, startTime, delta, IdArgs(id))));
    }

    method WriteDeviceTimingInStages(name: string, count: uint32, queueNumber: uint32, queuedTime: uint64,
                                     submitTime: uint64, startTime: uint64, endTime: uint64, id: uint64)
      requires Consistent()
      modifies `traceFile, `log
      ensures Consistent()
      ensures log == old(log) + Entries(true, TimingObjects(Cfg(),
                Stages(name, count, queueNumber, queuedTime, submitTime, startTime, endTime, id)))
    {
      hide Line, Lines, StageObject, StageQueueLine, Digits;
      var starts := [queuedTime, submitTime, startTime];
      var deltas := [Minus(submitTime, queuedTime), Minus(startTime, submitTime), Minus(endTime, startTime)];
      ghost var tid := Number(count, Digits(queueNumber));
      ghost var all := StageObjects(processId, tid, name, queuedTime, submitTime, startTime, endTime, id);
      for state := 0 to 3
        invariant Consistent() && log == old(log) + Entries(true, all[..state])
      {
        StageQueueLineIs(processId, count, queueNumber, name, state, starts[state], deltas[state], id);
        Write(StageQueueLine(processId, count, queueNumber, name, state, starts[state], deltas[state], id),
              true, StageObject(processId, tid, name, state, starts[state], deltas[state], id));
        assert all[..state + 1] == all[..state] + [all[state]];
      }
      assert all[..3] == all;
    }

    method WriteDeviceTimingInStagesPerKernel(name: string, queuedTime: uint64, submitTime: uint64, startTime: uint64,
                                              endTime: uint64, id: uint64)
      requires Consistent()
      modifies `traceFile, `log
      ensures Consistent()
      ensures log == old(log) + Entries(true, TimingObjects(Cfg(),
                StagesPerKernel(name, queuedTime, submitTime, startTime, endTime, id)))
    {
      hide Line, Lines, StageObject, StageKernelLine;
      var starts := [queuedTime, submitTime, startTime];
      var deltas := [Minus(submitTime, queuedTime), Minus(startTime, submitTime), Minus(endTime, startTime)];
      ghost var all := StageObjects(processId, String(name), name, queuedTime, submitTime, startTime, endTime, id);
      for state := 0 to 3
        invariant Consistent() && log == old(log) + Entries(true, all[..state])
      {
        StageKernelLineIs(processId, name, state, starts[state], deltas[state], id);
        Write(StageKernelLine(processId, name, state, starts[state], deltas[state], id),
              true, StageObject(processId, String(name), name, state, starts[state], deltas[state], id));
        assert all[..state + 1] == all[..state] + [all[state]];
      }
      assert all[..3] == all;
    }
  }

  lemma LinesOfOne(log: seq<Entry>, timing: bool, event: Value)
    ensures Lines(log + Entries(timing, [event])) == Lines(log) + Line(event)
  {
    hide Line;
    LinesAppend(log, timing, [event]);
    FlatMapSnoc(Line, [], event);
    assert [] + [event] == [event] && "" + Line(event) == Line(event);
  }

  lemma OneMoreRecord(c: Config, log: seq<Entry>, recs: seq<Record>, i: nat)
    requires i < |recs|
    ensures log + Entries(true, AllObjects(c, DecodedAll(recs[..i]))) + Entries(true, TimingObjects(c, Decoded(recs[i])))
         == log + Entries(true, AllObjects(c, DecodedAll(recs[..i + 1])))
  {
    hide TimingObjects, Decoded, AllObjects;
    assert DecodedAll(recs[..i + 1]) == DecodedAll(recs[..i]) + [Decoded(recs[i])];
    AllObjectsSnoc(c, DecodedAll(recs[..i]), Decoded(recs[i]));
  }

  lemma DrainNothing(s: State)
    requires s.pending == []
    ensures Drain(s) == s
  {
    assert s.log + Entries(true, []) == s.log;
  }
}
