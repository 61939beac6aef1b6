/**
 The printed lines, as the format strings lay them out, are the text of the objects they stand for.
 Each function here is the rest of a line from some field on; each lemma names the fields it prints.
 */
module TraceLines {
  import opened Text
  import opened Words
  import opened Json
  import opened Micros
  import opened ChromeTrace

  // ---- Ends of lines ----

  function DurEnd(delta: uint64): string { ",\"dur\":" + (MicroText(delta) + "},\n") }

  function DurIdEnd(delta: uint64, id: uint64): string {
    ",\"dur\":" + (MicroText(delta) + (",\"args\":{\"id\":" + (Digits(id) + "}},\n")))
  }

  function DurColourEnd(delta: uint64, colour: string, id: uint64): string {
    ",\"dur\":" + (MicroText(delta) + (",\"cname\":\"" + (colour + ("\",\"args\":{\"id\":" + (Digits(id) + "}},\n")))))
  }

  function FlowEnd(start: uint64, id: uint64): string {
    "Command\",\"cat\":\"Commands\",\"ts\":" + (MicroText(start) + (",\"id\":" + (Digits(id) + "},\n")))
  }

  /** From the closing quote of the name. */
  function TsEnd(start: uint64, end: string): string { "\",\"ts\":" + (MicroText(start) + end) }

  /** The text of `fields` as the rest of an object, then the end of the line. */
  function Rest(fields: Fields): string { "," + PrintFields(fields, ",\n") }

  lemma PrintMicro(t: uint64, tail: string)
    ensures Print(Micro(t), tail) == MicroText(t) + tail
  {
    var w, f := Digits(PrintedNs(t) / 1000), Pad3(PrintedNs(t) % 1000);
    Regroup(".", f, tail);
    Regroup(w, "." + f, tail);
  }

  lemma PrintInt(n: nat, tail: string)
    ensures Print(Int(n), tail) == Digits(n) + tail
  {
  }

  lemma PrintString(text: string, tail: string)
    ensures Print(String(text), tail) == "\"" + (text + ("\"" + tail))
  {
  }

  /** Two adjacent literals as the one the format string has. */
  lemma Merge(a: string, b: string, both: string, tail: string)
    requires both == a + b
    ensures a + (b + tail) == both + tail
  {
  }

  /** One field and what follows it; `lead` is the comma, the key and the colon. */
  lemma FieldText(key: string, value: Value, rest: Fields, lead: string)
    requires rest.Field? && lead == "," + Key(key)
    ensures Rest(Field(key, value, rest)) == lead + Print(value, Rest(rest))
  {
    hide Print;
    Regroup(",", Key(key), Print(value, Rest(rest)));
  }

  lemma MicroField(key: string, t: uint64, rest: Fields, lead: string)
    requires rest.Field? && lead == "," + Key(key)
    ensures Rest(Field(key, Micro(t), rest)) == lead + (MicroText(t) + Rest(rest))
  {
    hide Print, PrintFields, Micro, MicroText;
    FieldText(key, Micro(t), rest, lead);
    PrintMicro(t, Rest(rest));
  }

  /** `lead` includes the opening quote of the value. */
  lemma StringField(key: string, text: string, rest: Fields, lead: string)
    requires rest.Field? && lead == "," + Key(key) + "\""
    ensures Rest(Field(key, String(text), rest)) == lead + (text + ("\"" + Rest(rest)))
  {
    FieldText(key, String(text), rest, "," + Key(key));
    PrintString(text, Rest(rest));
    hide Print, PrintFields;
    Merge("," + Key(key), "\"", lead, text + ("\"" + Rest(rest)));
  }

  lemma IdArgsLiteral(d: string)
    ensures "," + (Key("args") + ("{" + (Key("id") + (d + ("}" + ("}" + ",\n")))))) == ",\"args\":{\"id\":" + (d + "}},\n")
  {
    assert "}" + ("}" + ",\n") == "}},\n";
  }

  lemma IdArgsText(id: uint64)
    ensures Rest(IdArgs(id)) == ",\"args\":{\"id\":" + (Digits(id) + "}},\n")
  {
    var tail := "}" + ",\n";
    IdArgsLiteral(Digits(id));
    PrintInt(id, "}" + tail);
    hide Digits, Key;
    var inner := Field("id", Int(id), End);
    assert Print(Object(inner), tail) == "{" + PrintFields(inner, tail);
    assert PrintFields(inner, tail) == Key("id") + Print(Int(id), "}" + tail);
  }

  lemma DurText(delta: uint64)
    ensures Rest(Field("dur", Micro(delta), End)) == DurEnd(delta)
  {
    hide Micro, MicroText;
    PrintMicro(delta, "}" + ",\n");
    assert "}" + ",\n" == "},\n";
  }

  lemma DurIdText(delta: uint64, id: uint64)
    ensures Rest(Field("dur", Micro(delta), IdArgs(id))) == DurIdEnd(delta, id)
  {
    MicroField("dur", delta, IdArgs(id), ",\"dur\":");
    IdArgsText(id);
  }

  lemma DurColourText(delta: uint64, colour: string, id: uint64)
    ensures Rest(Field("dur", Micro(delta), Field("cname", String(colour), IdArgs(id)))) == DurColourEnd(delta, colour, id)
  {
    hide Print, PrintFields, Micro, MicroText, IdArgs;
    var cname := Field("cname", String(colour), IdArgs(id));
    IdArgsHasField(id);
    MicroField("dur", delta, cname, ",\"dur\":");
    StringField("cname", colour, IdArgs(id), ",\"cname\":\"");
    IdArgsText(id);
    Merge("\"", ",\"args\":{\"id\":", "\",\"args\":{\"id\":", Digits(id) + "}},\n");
  }

  lemma IdArgsHasField(id: uint64)
    ensures IdArgs(id).Field?
  {
  }

  /** From the closing quote before the timestamp. */
  lemma TsText(start: uint64, rest: Fields)
    requires rest.Field?
    ensures "\"" + Rest(Field("ts", Micro(start), rest)) == TsEnd(start, Rest(rest))
  {
    hide Print, PrintFields, Micro, MicroText, Rest;
    MicroField("ts", start, rest, ",\"ts\":");
    Merge("\"", ",\"ts\":", "\",\"ts\":", MicroText(start) + Rest(rest));
  }

  /** The fields of a slice, from its name on. */
  lemma SliceText(name: string, start: uint64, delta: uint64, rest: Fields)
    ensures Rest(Slice(name, start, delta, rest))
         == ",\"name\":\"" + (name + TsEnd(start, Rest(Field("dur", Micro(delta), rest))))
  {
    hide Print, PrintFields, Micro, MicroText, Rest, TsEnd;
    var dur := Field("dur", Micro(delta), rest);
    TsText(start, dur);
    StringField("name", name, Field("ts", Micro(start), dur), ",\"name\":\"");
  }

  lemma FlowLiteral(tail: string)
    ensures "Command" + ("\"" + (",\"cat\":\"" + ("Commands" + ("\"" + (",\"ts\":" + tail)))))
         == "Command\",\"cat\":\"Commands\",\"ts\":" + tail
  {
  }

  lemma IdEnd(id: uint64)
    ensures Rest(Field("id", Int(id), End)) == ",\"id\":" + (Digits(id) + "},\n")
  {
    PrintInt(id, "}" + ",\n");
    hide Digits, Print;
    assert "}" + ",\n" == "},\n";
    Merge(",", Key("id"), ",\"id\":", Digits(id) + "},\n");
  }

  lemma FlowText(start: uint64, id: uint64)
    ensures Rest(Field("name", String("Command"), Field("cat", String("Commands"),
                       Field("ts", Micro(start), Field("id", Int(id), End))))) == ",\"name\":\"" + FlowEnd(start, id)
  {
    hide Print, PrintFields, Micro, MicroText, Rest;
    var f3 := Field("id", Int(id), End);
    var f2 := Field("ts", Micro(start), f3);
    var f1 := Field("cat", String("Commands"), f2);
    IdEnd(id);
    MicroField("ts", start, f3, ",\"ts\":");
    StringField("cat", "Commands", f2, ",\"cat\":\"");
    StringField("name", "Command", f1, ",\"name\":\"");
    FlowLiteral(MicroText(start) + Rest(f3));
  }

  // ---- Whole lines ----

  /** An event line: phase and process, then the track, then the rest. */
  lemma EventText(ph: string, pid: uint64, tid: Value, rest: Fields)
    requires rest.Field?
    ensures Line(Event(ph, pid, tid, rest))
         == "{\"ph\":\"" + (ph + ("\",\"pid\":" + (Digits(pid) + (",\"tid\":" + Print(tid, Rest(rest))))))
  {
    var f2 := Field("tid", tid, rest);
    var f1 := Field("pid", Int(pid), f2);
    EventFields(ph, f1);
    hide Print, PrintFields, Rest, Line;
    FieldText("tid", tid, rest, ",\"tid\":");
    FieldText("pid", Int(pid), f2, ",\"pid\":");
    PrintInt(pid, Rest(f2));
    Merge("\"", ",\"pid\":", "\",\"pid\":", Digits(pid) + Rest(f2));
  }

  lemma EventFields(ph: string, rest: Fields)
    requires rest.Field?
    ensures Line(Object(Field("ph", String(ph), rest))) == "{\"ph\":\"" + (ph + ("\"" + Rest(rest)))
  {
    var f0 := Field("ph", String(ph), rest);
    PrintString(ph, Rest(rest));
    assert PrintFields(f0, ",\n") == Key("ph") + Print(String(ph), Rest(rest));
    hide Print, PrintFields;
    Merge(Key("ph"), "\"", "\"ph\":\"", ph + ("\"" + Rest(rest)));
    Merge("{", "\"ph\":\"", "{\"ph\":\"", ph + ("\"" + Rest(rest)));
  }

  /** As the format strings have it: the phase is part of the first literal. */
  lemma EventLine(ph: string, lead: string, pid: uint64, tid: Value, rest: Fields)
    requires rest.Field? && lead == "{\"ph\":\"" + (ph + "\",\"pid\":")
    ensures Line(Event(ph, pid, tid, rest)) == lead + (Digits(pid) + (",\"tid\":" + Print(tid, Rest(rest))))
  {
    EventText(ph, pid, tid, rest);
    hide Print, Rest, Line, Event;
    var tail := Digits(pid) + (",\"tid\":" + Print(tid, Rest(rest)));
    Regroup(ph, "\",\"pid\":", tail);
    Regroup("{\"ph\":\"", ph + "\",\"pid\":", tail);
  }

  // ---- Tracks ----

  /** A host thread. */
  lemma ThreadTrack(threadId: nat, tail: string)
    ensures Print(Int(threadId), tail) == Digits(threadId) + tail
  {
    PrintInt(threadId, tail);
  }

  /** A queue: its number, then ".1". */
  lemma QueueTrack(queue: nat, lead: string, merged: string, tail: string)
    requires merged == ".1" + lead
    ensures Print(Number(queue, "1"), lead + tail) == Digits(queue) + (merged + tail)
  {
    hide Digits;
    Regroup(".1", lead, tail);
    Merge(".", "1", ".1", lead + tail);
  }

  lemma StageTrack(count: nat, queue: nat, tail: string)
    ensures Print(Number(count, Digits(queue)), tail) == Digits(count) + ("." + (Digits(queue) + tail))
  {
  }

  /** A track per kernel: the kernel's name. */
  lemma KernelTrack(name: string, tail: string)
    ensures ",\"tid\":" + Print(String(name), ",\"name\":\"" + tail)
         == ",\"tid\":\"" + (name + ("\",\"name\":\"" + tail))
  {
    PrintString(name, ",\"name\":\"" + tail);
    hide Print;
    Merge("\"", ",\"name\":\"", "\",\"name\":\"", tail);
    Merge(",\"tid\":", "\"", ",\"tid\":\"", name + ("\",\"name\":\"" + tail));
  }

  // ---- Metadata ----

  lemma MetaText(name: string, lead: string, pid: uint64, tid: Value, rest: Fields)
    requires rest.Field? && lead == "{\"ph\":\"M\",\"name\":\"" + (name + "\",\"pid\":")
    ensures Line(MetaEvent(name, pid, tid, rest)) == lead + (Digits(pid) + (",\"tid\":" + Print(tid, Rest(rest))))
  {
    var f3 := Field("tid", tid, rest);
    var f2 := Field("pid", Int(pid), f3);
    var f1 := Field("name", String(name), f2);
    EventFields("M", f1);
    hide Print, PrintFields, Line, Rest;
    FieldText("tid", tid, rest, ",\"tid\":");
    FieldText("pid", Int(pid), f3, ",\"pid\":");
    PrintInt(pid, Rest(f3));
    StringField("name", name, f2, ",\"name\":\"");
    MetaLead(name, lead, Digits(pid) + Rest(f3));
  }

  lemma MetaLead(name: string, lead: string, tail: string)
    requires lead == "{\"ph\":\"M\",\"name\":\"" + (name + "\",\"pid\":")
    ensures "{\"ph\":\"" + ("M" + ("\"" + (",\"name\":\"" + (name + ("\"" + (",\"pid\":" + tail)))))) == lead + tail
  {
    Merge("\"", ",\"pid\":", "\",\"pid\":", tail);
    Regroup(name, "\",\"pid\":", tail);
    var s := name + ("\",\"pid\":" + tail);
    assert "{\"ph\":\"" + ("M" + ("\"" + (",\"name\":\"" + s))) == "{\"ph\":\"M\",\"name\":\"" + s;
    Regroup("{\"ph\":\"M\",\"name\":\"", name + "\",\"pid\":", tail);
  }

  lemma ArgsHasField(key: string, value: Value)
    ensures Args(key, value).Field?
  {
  }

  lemma ArgsOpen(key: string, value: Value)
    ensures Rest(Args(key, value)) == "," + (Key("args") + ("{" + (Key(key) + Print(value, "}" + ("}" + ",\n")))))
  {
    var tail := "}" + ",\n";
    hide Key;
    var inner := Field(key, value, End);
    assert PrintFields(inner, tail) == Key(key) + Print(value, "}" + tail);
    assert Print(Object(inner), tail) == "{" + PrintFields(inner, tail);
  }

  lemma ArgsString(key: string, text: string, lead: string)
    requires lead == ",\"args\":{" + (Key(key) + "\"")
    ensures Rest(Args(key, String(text))) == lead + (text + "\"}},\n")
  {
    ArgsOpen(key, String(text));
    PrintString(text, "}" + ("}" + ",\n"));
    hide Print, Rest;
    assert "\"" + ("}" + ("}" + ",\n")) == "\"}},\n";
    ArgsLead(key, "\"" + (text + "\"}},\n"));
    Regroup(Key(key), "\"", text + "\"}},\n");
    Regroup(",\"args\":{", Key(key) + "\"", text + "\"}},\n");
  }

  lemma ArgsInt(key: string, n: nat, lead: string)
    requires lead == ",\"args\":{" + Key(key)
    ensures Rest(Args(key, Int(n))) == lead + (Digits(n) + "}},\n")
  {
    ArgsOpen(key, Int(n));
    PrintInt(n, "}" + ("}" + ",\n"));
    hide Print, Rest, Digits;
    assert "}" + ("}" + ",\n") == "}},\n";
    ArgsLead(key, Digits(n) + "}},\n");
    Regroup(",\"args\":{", Key(key), Digits(n) + "}},\n");
  }

  lemma ArgsLead(key: string, tail: string)
    ensures "," + (Key("args") + ("{" + (Key(key) + tail))) == ",\"args\":{" + (Key(key) + tail)
  {
    var s := Key(key) + tail;
    assert "," + (Key("args") + ("{" + s)) == ",\"args\":{" + s;
  }

  /** The last object has no comma after it, and the bracket follows. */
  lemma LastObjectText(name: string, lead: string, pid: uint64)
    requires lead == "{\"ph\":\"M\",\"name\":\"" + (name + "\",\"pid\":")
    ensures Print(MetaEvent(name, pid, Int(0), End), "\n]\n") == lead + (Digits(pid) + ",\"tid\":0}\n]\n")
  {
    var tail := "\n]\n";
    var f3 := Field("tid", Int(0), End);
    assert PrintFields(f3, tail) == Key("tid") + ("0" + ("}" + tail));
    var f2 := Field("pid", Int(pid), f3);
    PrintInt(pid, "," + PrintFields(f3, tail));
    assert "," + PrintFields(f3, tail) == ",\"tid\":0}\n]\n";
    var f1 := Field("name", String(name), f2);
    PrintString(name, "," + PrintFields(f2, tail));
    PrintString("M", "," + PrintFields(f1, tail));
    LastObjectLead(name, lead, Digits(pid) + ",\"tid\":0}\n]\n");
  }

  lemma LastObjectLead(name: string, lead: string, tail: string)
    requires lead == "{\"ph\":\"M\",\"name\":\"" + (name + "\",\"pid\":")
    ensures "{" + (Key("ph") + ("\"" + ("M" + ("\"" + ("," + (Key("name") + ("\"" + (name + ("\""
              + ("," + (Key("pid") + tail))))))))))) == lead + tail
  {
    var s := name + ("\",\"pid\":" + tail);
    assert "\"" + ("," + (Key("pid") + tail)) == "\",\"pid\":" + tail;
    EofStart(s);
    Regroup(name, "\",\"pid\":", tail);
    Regroup("{\"ph\":\"M\",\"name\":\"", name + "\",\"pid\":", tail);
  }

  lemma EofText(c: Config)
    ensures Print(Eof(c), "\n]\n")
         == "{\"ph\":\"M\",\"name\":\"clintercept_eof\",\"pid\":" + (Digits(c.pid) + ",\"tid\":0}\n]\n")
  {
    EofLead();
    LastObjectText("clintercept_eof", "{\"ph\":\"M\",\"name\":\"clintercept_eof\",\"pid\":", c.pid);
    hide Print, Digits;
  }

  lemma EofLead()
    ensures "{\"ph\":\"M\",\"name\":\"clintercept_eof\",\"pid\":"
         == "{\"ph\":\"M\",\"name\":\"" + ("clintercept_eof" + "\",\"pid\":")
  {
  }

  lemma EofStart(s: string)
    ensures "{" + (Key("ph") + ("\"" + ("M" + ("\"" + ("," + (Key("name") + ("\"" + s)))))))
         == "{\"ph\":\"M\",\"name\":\"" + s
  {
  }
}
