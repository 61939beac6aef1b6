/** What each format string prints, and the object that text stands for. */
module TraceFormats {
  import opened Text
  import opened Words
  import opened Json
  import opened Micros
  import opened ChromeTrace
  import opened TraceLines

  // ---- The lines, as the format strings have them ----

  function CallLine(pid: uint64, threadId: uint64, name: string, start: uint64, delta: uint64): string {
    "{\"ph\":\"X\",\"pid\":" + (Digits(pid) + (",\"tid\":" + (Digits(threadId) + (",\"name\":\"" + (name
      + ("\",\"ts\":" + (MicroText(start) + (",\"dur\":" + (MicroText(delta) + "},\n")))))))))
  }

  function CallTagLine(pid: uint64, threadId: uint64, name: string, tag: string, start: uint64, delta: uint64): string {
    "{\"ph\":\"X\",\"pid\":" + (Digits(pid) + (",\"tid\":" + (Digits(threadId) + (",\"name\":\"" + (name
      + ("( " + (tag + (" )\",\"ts\":" + (MicroText(start) + (",\"dur\":" + (MicroText(delta) + "},\n")))))))))))
  }

  function CallIdLine(pid: uint64, threadId: uint64, name: string, start: uint64, delta: uint64, id: uint64): string {
    "{\"ph\":\"X\",\"pid\":" + (Digits(pid) + (",\"tid\":" + (Digits(threadId) + (",\"name\":\"" + (name
      + ("\",\"ts\":" + (MicroText(start) + (",\"dur\":" + (MicroText(delta)
      + (",\"args\":{\"id\":" + (Digits(id) + "}},\n")))))))))))
  }

  function CallTagIdLine(pid: uint64, threadId: uint64, name: string, tag: string,
                         start: uint64, delta: uint64, id: uint64): string
  {
    "{\"ph\":\"X\",\"pid\":" + (Digits(pid) + (",\"tid\":" + (Digits(threadId) + (",\"name\":\"" + (name
      + ("( " + (tag + (" )\",\"ts\":" + (MicroText(start) + (",\"dur\":" + (MicroText(delta)
      + (",\"args\":{\"id\":" + (Digits(id) + "}},\n")))))))))))))
  }

  function FlowStartLine(pid: uint64, threadId: uint64, start: uint64, id: uint64): string {
    "{\"ph\":\"s\",\"pid\":" + (Digits(pid) + (",\"tid\":" + (Digits(threadId) + (",\"name\":\""
      + ("Command\",\"cat\":\"Commands\",\"ts\":" + (MicroText(start) + (",\"id\":" + (Digits(id) + "},\n"))))))))
  }

  function FlowQueueLine(pid: uint64, queue: uint32, start: uint64, id: uint64): string {
    "{\"ph\":\"f\",\"pid\":" + (Digits(pid) + (",\"tid\":" + (Digits(queue) + (".1,\"name\":\""
      + ("Command\",\"cat\":\"Commands\",\"ts\":" + (MicroText(start) + (",\"id\":" + (Digits(id) + "},\n"))))))))
  }

  function FlowKernelLine(pid: uint64, name: string, start: uint64, id: uint64): string {
    "{\"ph\":\"f\",\"pid\":" + (Digits(pid) + (",\"tid\":\"" + (name + ("\",\"name\":\""
      + ("Command\",\"cat\":\"Commands\",\"ts\":" + (MicroText(start) + (",\"id\":" + (Digits(id) + "},\n"))))))))
  }

  function QueueLine(pid: uint64, queue: uint32, name: string, start: uint64, delta: uint64, id: uint64): string {
    "{\"ph\":\"X\",\"pid\":" + (Digits(pid) + (",\"tid\":" + (Digits(queue) + (".1,\"name\":\"" + (name
      + ("\",\"ts\":" + (MicroText(start) + (",\"dur\":" + (MicroText(delta)
      + (",\"args\":{\"id\":" + (Digits(id) + "}},\n")))))))))))
  }

  function KernelLine(pid: uint64, name: string, start: uint64, delta: uint64, id: uint64): string {
    "{\"ph\":\"X\",\"pid\":" + (Digits(pid) + (",\"tid\":\"" + (name + ("\",\"name\":\"" + (name
      + ("\",\"ts\":" + (MicroText(start) + (",\"dur\":" + (MicroText(delta)
      + (",\"args\":{\"id\":" + (Digits(id) + "}},\n")))))))))))
  }

  function StageQueueLine(pid: uint64, count: uint32, queue: uint32, name: string, stage: nat,
                          start: uint64, delta: uint64, id: uint64): string
  {
    "{\"ph\":\"X\",\"pid\":" + (Digits(pid) + (",\"tid\":" + (Digits(count) + ("." + (Digits(queue) + (",\"name\":\"" + (name
      + (" " + (Suffix(stage) + ("\",\"ts\":" + (MicroText(start) + (",\"dur\":" + (MicroText(delta)
      + (",\"cname\":\"" + (Colour(stage) + ("\",\"args\":{\"id\":" + (Digits(id) + "}},\n")))))))))))))))))
  }

  function StageKernelLine(pid: uint64, name: string, stage: nat, start: uint64, delta: uint64, id: uint64): string {
    "{\"ph\":\"X\",\"pid\":" + (Digits(pid) + (",\"tid\":\"" + (name + ("\",\"name\":\"" + (name
      + (" " + (Suffix(stage) + ("\",\"ts\":" + (MicroText(start) + (",\"dur\":" + (MicroText(delta)
      + (",\"cname\":\"" + (Colour(stage) + ("\",\"args\":{\"id\":" + (Digits(id) + "}},\n")))))))))))))))
  }

  function ProcessNameLine(pid: uint64, name: string): string {
    "{\"ph\":\"M\",\"name\":\"process_name\",\"pid\":" + (Digits(pid)
      + (",\"tid\":0" + (",\"args\":{\"name\":\"" + (name + "\"}},\n"))))
  }

  function ThreadNameLine(pid: uint64, threadId: uint64): string {
    "{\"ph\":\"M\",\"name\":\"thread_name\",\"pid\":" + (Digits(pid) + (",\"tid\":" + (Digits(threadId)
      + (",\"args\":{\"name\":\"Host Thread " + (Digits(threadId) + "\"}},\n")))))
  }

  function ThreadIndexLine(pid: uint64, threadId: uint64, index: uint32): string {
    "{\"ph\":\"M\",\"name\":\"thread_sort_index\",\"pid\":" + (Digits(pid) + (",\"tid\":" + (Digits(threadId)
      + (",\"args\":{\"sort_index\":\"" + (Digits(index) + "\"}},\n")))))
  }

  function StartTimeLine(pid: uint64, start: uint64): string {
    "{\"ph\":\"M\",\"name\":\"clintercept_start_time\",\"pid\":" + (Digits(pid)
      + (",\"tid\":0" + (",\"args\":{\"start_time\":" + (Digits(start) + "}},\n"))))
  }

  function QueueNameLine(pid: uint64, queue: uint32, name: string): string {
    "{\"ph\":\"M\",\"name\":\"thread_name\",\"pid\":" + (Digits(pid) + (",\"tid\":" + (Digits(queue)
      + (".1,\"args\":{\"name\":\"" + (name + "\"}},\n")))))
  }

  function QueueIndexLine(pid: uint64, queue: uint32): string {
    "{\"ph\":\"M\",\"name\":\"thread_sort_index\",\"pid\":" + (Digits(pid) + (",\"tid\":" + (Digits(queue)
      + (".1,\"args\":{\"sort_index\":\"" + (Digits(queue) + "\"}},\n")))))
  }

  // ---- The objects they stand for ----

  lemma CallLineIs(pid: uint64, threadId: uint64, name: string, start: uint64, delta: uint64)
    ensures CallLine(pid, threadId, name, start, delta)
         == Line(Event("X", pid, Int(threadId), Slice(name, start, delta, End)))
  {
    hide Line, Print, Event, Rest, Micro, MicroText, Digits;
    var rest := Slice(name, start, delta, End);
    EventLine("X", "{\"ph\":\"X\",\"pid\":", pid, Int(threadId), rest);
    ThreadTrack(threadId, Rest(rest));
    SliceText(name, start, delta, End);
    DurText(delta);
  }

  lemma CallTagLineIs(pid: uint64, threadId: uint64, name: string, tag: string, start: uint64, delta: uint64)
    ensures CallTagLine(pid, threadId, name, tag, start, delta)
         == Line(Event("X", pid, Int(threadId), Slice(Tagged(name, tag), start, delta, End)))
  {
    hide Line, Print, Event, Rest, Micro, MicroText, Digits, Tagged, TsEnd;
    var rest := Slice(Tagged(name, tag), start, delta, End);
    EventLine("X", "{\"ph\":\"X\",\"pid\":", pid, Int(threadId), rest);
    ThreadTrack(threadId, Rest(rest));
    SliceText(Tagged(name, tag), start, delta, End);
    DurText(delta);
    TaggedText(name, tag, start, DurEnd(delta));
  }

  lemma CallIdLineIs(pid: uint64, threadId: uint64, name: string, start: uint64, delta: uint64, id: uint64)
    ensures CallIdLine(pid, threadId, name, start, delta, id)
         == Line(Event("X", pid, Int(threadId), Slice(name, start, delta, IdArgs(id))))
  {
    hide Line, Print, Event, Rest, Micro, MicroText, Digits, IdArgs;
    var rest := Slice(name, start, delta, IdArgs(id));
    EventLine("X", "{\"ph\":\"X\",\"pid\":", pid, Int(threadId), rest);
    ThreadTrack(threadId, Rest(rest));
    SliceText(name, start, delta, IdArgs(id));
    DurIdText(delta, id);
  }

  lemma CallTagIdLineIs(pid: uint64, threadId: uint64, name: string, tag: string, start: uint64, delta: uint64, id: uint64)
    ensures CallTagIdLine(pid, threadId, name, tag, start, delta, id)
         == Line(Event("X", pid, Int(threadId), Slice(Tagged(name, tag), start, delta, IdArgs(id))))
  {
    hide Line, Print, Event, Rest, Micro, MicroText, Digits, Tagged, TsEnd, IdArgs;
    var rest := Slice(Tagged(name, tag), start, delta, IdArgs(id));
    EventLine("X", "{\"ph\":\"X\",\"pid\":", pid, Int(threadId), rest);
    ThreadTrack(threadId, Rest(rest));
    SliceText(Tagged(name, tag), start, delta, IdArgs(id));
    DurIdText(delta, id);
    TaggedText(name, tag, start, DurIdEnd(delta, id));
  }

  ghost function FlowFields(start: uint64, id: uint64): Fields {
    Field("name", String("Command"), Field("cat", String("Commands"), Field("ts", Micro(start), Field("id", Int(id), End))))
  }

  lemma FlowStartLineIs(pid: uint64, threadId: uint64, start: uint64, id: uint64)
    ensures FlowStartLine(pid, threadId, start, id) == Line(Flow("s", pid, Int(threadId), start, id))
  {
    hide Line, Print, Event, Rest, Micro, MicroText, Digits;
    EventLine("s", "{\"ph\":\"s\",\"pid\":", pid, Int(threadId), FlowFields(start, id));
    ThreadTrack(threadId, Rest(FlowFields(start, id)));
    FlowText(start, id);
  }

  lemma FlowQueueLineIs(pid: uint64, queue: uint32, start: uint64, id: uint64)
    ensures FlowQueueLine(pid, queue, start, id) == Line(Flow("f", pid, Number(queue, "1"), start, id))
  {
    hide Line, Print, Event, Rest, Micro, MicroText, Digits;
    EventLine("f", "{\"ph\":\"f\",\"pid\":", pid, Number(queue, "1"), FlowFields(start, id));
    FlowText(start, id);
    QueueTrack(queue, ",\"name\":\"", ".1,\"name\":\"", FlowEnd(start, id));
  }

  lemma FlowKernelLineIs(pid: uint64, name: string, start: uint64, id: uint64)
    ensures FlowKernelLine(pid, name, start, id) == Line(Flow("f", pid, String(name), start, id))
  {
    hide Line, Print, Event, Rest, Micro, MicroText, Digits;
    EventLine("f", "{\"ph\":\"f\",\"pid\":", pid, String(name), FlowFields(start, id));
    FlowText(start, id);
    KernelTrack(name, FlowEnd(start, id));
  }

  lemma QueueLineIs(pid: uint64, queue: uint32, name: string, start: uint64, delta: uint64, id: uint64)
    ensures QueueLine(pid, queue, name, start, delta, id)
         == Line(Event("X", pid, Number(queue, "1"), Slice(name, start, delta, IdArgs(id))))
  {
    hide Line, Print, Event, Rest, Micro, MicroText, Digits, IdArgs;
    EventLine("X", "{\"ph\":\"X\",\"pid\":", pid, Number(queue, "1"), Slice(name, start, delta, IdArgs(id)));
    SliceText(name, start, delta, IdArgs(id));
    DurIdText(delta, id);
    QueueTrack(queue, ",\"name\":\"", ".1,\"name\":\"", name + TsEnd(start, DurIdEnd(delta, id)));
  }

  lemma KernelLineIs(pid: uint64, name: string, start: uint64, delta: uint64, id: uint64)
    ensures KernelLine(pid, name, start, delta, id)
         == Line(Event("X", pid, String(name), Slice(name, start, delta, IdArgs(id))))
  {
    hide Line, Print, Event, Rest, Micro, MicroText, Digits, IdArgs;
    EventLine("X", "{\"ph\":\"X\",\"pid\":", pid, String(name), Slice(name, start, delta, IdArgs(id)));
    SliceText(name, start, delta, IdArgs(id));
    DurIdText(delta, id);
    KernelTrack(name, name + TsEnd(start, DurIdEnd(delta, id)));
  }

  ghost function StageFields(name: string, stage: nat, start: uint64, delta: uint64, id: uint64): Fields {
    Slice(name + (" " + Suffix(stage)), start, delta, Field("cname", String(Colour(stage)), IdArgs(id)))
  }

  /** A stage line from the characters of its name. */
  ghost function StageEnd(name: string, stage: nat, start: uint64, delta: uint64, id: uint64): string {
    name + (" " + (Suffix(stage) + TsEnd(start, DurColourEnd(delta, Colour(stage), id))))
  }

  lemma StageText(name: string, stage: nat, start: uint64, delta: uint64, id: uint64)
    ensures Rest(StageFields(name, stage, start, delta, id)) == ",\"name\":\"" + StageEnd(name, stage, start, delta, id)
  {
    hide Rest, Micro, IdArgs, TsEnd, DurColourEnd, Suffix, Colour, Slice;
    var cname := Field("cname", String(Colour(stage)), IdArgs(id));
    var tail := TsEnd(start, DurColourEnd(delta, Colour(stage), id));
    SliceText(name + (" " + Suffix(stage)), start, delta, cname);
    DurColourText(delta, Colour(stage), id);
    Regroup(" ", Suffix(stage), tail);
    Regroup(name, " " + Suffix(stage), tail);
  }

  lemma StageQueueLineIs(pid: uint64, count: uint32, queue: uint32, name: string, stage: nat,
                         start: uint64, delta: uint64, id: uint64)
    ensures StageQueueLine(pid, count, queue, name, stage, start, delta, id)
         == Line(StageObject(pid, Number(count, Digits(queue)), name, stage, start, delta, id))
  {
    hide Line, Print, Event, Rest, Micro, MicroText, Digits, IdArgs, Suffix, Colour;
    var rest := StageFields(name, stage, start, delta, id);
    EventLine("X", "{\"ph\":\"X\",\"pid\":", pid, Number(count, Digits(queue)), rest);
    StageTrack(count, queue, Rest(rest));
    StageText(name, stage, start, delta, id);
  }

  lemma StageKernelLineIs(pid: uint64, name: string, stage: nat, start: uint64, delta: uint64, id: uint64)
    ensures StageKernelLine(pid, name, stage, start, delta, id)
         == Line(StageObject(pid, String(name), name, stage, start, delta, id))
  {
    hide Line, Print, Event, Rest, Micro, MicroText, Digits, IdArgs, Suffix, Colour;
    var rest := StageFields(name, stage, start, delta, id);
    EventLine("X", "{\"ph\":\"X\",\"pid\":", pid, String(name), rest);
    StageText(name, stage, start, delta, id);
    KernelTrack(name, StageEnd(name, stage, start, delta, id));
  }

  lemma TaggedText(name: string, tag: string, start: uint64, end: string)
    ensures Tagged(name, tag) + TsEnd(start, end)
         == name + ("( " + (tag + (" )\",\"ts\":" + (MicroText(start) + end))))
  {
    hide MicroText;
    var tail := MicroText(start) + end;
    Merge(" )", "\",\"ts\":", " )\",\"ts\":", tail);
    Regroup(tag, " )", "\",\"ts\":" + tail);
    Regroup("( ", tag + " )", "\",\"ts\":" + tail);
    Regroup(name, "( " + (tag + " )"), "\",\"ts\":" + tail);
  }

  lemma ProcessNameLead()
    ensures "{\"ph\":\"M\",\"name\":\"process_name\",\"pid\":" == "{\"ph\":\"M\",\"name\":\"" + ("process_name" + "\",\"pid\":")
  {
  }

  lemma ThreadNameLead()
    ensures "{\"ph\":\"M\",\"name\":\"thread_name\",\"pid\":" == "{\"ph\":\"M\",\"name\":\"" + ("thread_name" + "\",\"pid\":")
  {
  }

  lemma ThreadSortIndexLead()
    ensures "{\"ph\":\"M\",\"name\":\"thread_sort_index\",\"pid\":" == "{\"ph\":\"M\",\"name\":\"" + ("thread_sort_index" + "\",\"pid\":")
  {
  }

  lemma ClinterceptStartTimeLead()
    ensures "{\"ph\":\"M\",\"name\":\"clintercept_start_time\",\"pid\":" == "{\"ph\":\"M\",\"name\":\"" + ("clintercept_start_time" + "\",\"pid\":")
  {
  }

  lemma ArgsLeads()
    ensures ",\"args\":{\"name\":\"" == ",\"args\":{" + (Key("name") + "\"")
    ensures ",\"args\":{\"sort_index\":\"" == ",\"args\":{" + (Key("sort_index") + "\"")
    ensures ",\"args\":{\"start_time\":" == ",\"args\":{" + Key("start_time")
  {
  }

  lemma ZeroTrack(tail: string)
    ensures ",\"tid\":" + Print(Int(0), tail) == ",\"tid\":0" + tail
  {
    PrintInt(0, tail);
    assert Digits(0) == "0";
    Merge(",\"tid\":", "0", ",\"tid\":0", tail);
  }

  lemma ProcessNameLineIs(pid: uint64, name: string)
    ensures ProcessNameLine(pid, name) == Line(MetaEvent("process_name", pid, Int(0), Args("name", String(name))))
  {
    hide Line, Print, MetaEvent, Rest, Digits, Key, Args;
    ArgsHasField("name", String(name));
    ArgsLeads();
    ArgsString("name", name, ",\"args\":{\"name\":\"");
    ProcessNameLead();
    MetaText("process_name", "{\"ph\":\"M\",\"name\":\"process_name\",\"pid\":", pid, Int(0), Args("name", String(name)));
    ZeroTrack(Rest(Args("name", String(name))));
  }

  lemma ThreadNameLineIs(pid: uint64, threadId: uint64)
    ensures ThreadNameLine(pid, threadId)
         == Line(MetaEvent("thread_name", pid, Int(threadId), Args("name", String("Host Thread " + Digits(threadId)))))
  {
    hide Line, Print, MetaEvent, Rest, Digits, Key, Args;
    var args := Args("name", String("Host Thread " + Digits(threadId)));
    ArgsHasField("name", String("Host Thread " + Digits(threadId)));
    ArgsLeads();
    ArgsString("name", "Host Thread " + Digits(threadId), ",\"args\":{\"name\":\"");
    Regroup("Host Thread ", Digits(threadId), "\"}},\n");
    Merge(",\"args\":{\"name\":\"", "Host Thread ", ",\"args\":{\"name\":\"Host Thread ", Digits(threadId) + "\"}},\n");
    ThreadNameLead();
    MetaText("thread_name", "{\"ph\":\"M\",\"name\":\"thread_name\",\"pid\":", pid, Int(threadId), args);
    ThreadTrack(threadId, Rest(args));
  }

  lemma ThreadIndexLineIs(pid: uint64, threadId: uint64, index: uint32)
    ensures ThreadIndexLine(pid, threadId, index)
         == Line(MetaEvent("thread_sort_index", pid, Int(threadId), Args("sort_index", String(Digits(index)))))
  {
    hide Line, Print, MetaEvent, Rest, Digits, Key, Args;
    var args := Args("sort_index", String(Digits(index)));
    ArgsHasField("sort_index", String(Digits(index)));
    ArgsLeads();
    ArgsString("sort_index", Digits(index), ",\"args\":{\"sort_index\":\"");
    ThreadSortIndexLead();
    MetaText("thread_sort_index", "{\"ph\":\"M\",\"name\":\"thread_sort_index\",\"pid\":", pid, Int(threadId), args);
    ThreadTrack(threadId, Rest(args));
  }

  lemma StartTimeLineIs(pid: uint64, start: uint64)
    ensures StartTimeLine(pid, start)
         == Line(MetaEvent("clintercept_start_time", pid, Int(0), Args("start_time", Int(start))))
  {
    hide Line, Print, MetaEvent, Rest, Digits, Key, Args;
    ArgsHasField("start_time", Int(start));
    ArgsLeads();
    ArgsInt("start_time", start, ",\"args\":{\"start_time\":");
    ClinterceptStartTimeLead();
    MetaText("clintercept_start_time", "{\"ph\":\"M\",\"name\":\"clintercept_start_time\",\"pid\":", pid, Int(0),
             Args("start_time", Int(start)));
    ZeroTrack(Rest(Args("start_time", Int(start))));
  }

  lemma QueueNameLineIs(pid: uint64, queue: uint32, name: string)
    ensures QueueNameLine(pid, queue, name)
         == Line(MetaEvent("thread_name", pid, Number(queue, "1"), Args("name", String(name))))
  {
    hide Line, Print, MetaEvent, Rest, Digits, Key, Args;
    ArgsHasField("name", String(name));
    ArgsLeads();
    ArgsString("name", name, ",\"args\":{\"name\":\"");
    ThreadNameLead();
    MetaText("thread_name", "{\"ph\":\"M\",\"name\":\"thread_name\",\"pid\":", pid, Number(queue, "1"), Args("name", String(name)));
    QueueTrack(queue, ",\"args\":{\"name\":\"", ".1,\"args\":{\"name\":\"", name + "\"}},\n");
  }

  lemma QueueIndexLineIs(pid: uint64, queue: uint32)
    ensures QueueIndexLine(pid, queue)
         == Line(MetaEvent("thread_sort_index", pid, Number(queue, "1"), Args("sort_index", String(Digits(queue)))))
  {
    hide Line, Print, MetaEvent, Rest, Digits, Key, Args;
    ArgsHasField("sort_index", String(Digits(queue)));
    ArgsLeads();
    ArgsString("sort_index", Digits(queue), ",\"args\":{\"sort_index\":\"");
    ThreadSortIndexLead();
    MetaText("thread_sort_index", "{\"ph\":\"M\",\"name\":\"thread_sort_index\",\"pid\":", pid, Number(queue, "1"),
             Args("sort_index", String(Digits(queue))));
    QueueTrack(queue, ",\"args\":{\"sort_index\":\"", ".1,\"args\":{\"sort_index\":\"", Digits(queue) + "\"}},\n");
  }
}
