/**
 The configuration application: the current value of every control, an icon that says how it differs from the
 default and from what was saved, and a registry that stores only what differs from the default.
 */
module IconStates {
  import opened Words

  type byte = x: nat | x < 256
  type wchar = x: nat | x < 0x1_0000
  /** Text as the registry holds it, in 16-bit units. */
  type wstring = seq<wchar>
  type int32 = x: int | -0x8000_0000 <= x < 0x8000_0000

  datatype ControlType = IntControl | BoolControl | StringControl | SeparatorControl

  datatype Variable = Variable(kind: ControlType, name: string, defInt: int32, defString: wstring)

  datatype Icon = NonDefault | ModifiedNonDefault | ModifiedDefault | Default | Separator

  datatype RegistryType = Dword | Sz | AnotherType

  /** Values carry a type, but reading looks only at their bytes. */
  datatype RegistryValue = RegistryValue(kind: RegistryType, bytes: seq<byte>)

  type Registry = map<string, RegistryValue>

  predicate Numeric(v: Variable) { v.kind.IntControl? || v.kind.BoolControl? }

  /** The table of controls: names are distinct, and a bool's default is 0 or 1. */
  ghost predicate ProperTable(vars: seq<Variable>) {
    && (forall i, j :: 0 <= i < j < |vars| ==> vars[i].name != vars[j].name)
    && (forall i :: 0 <= i < |vars| && vars[i].kind.BoolControl? ==> vars[i].defInt == 0 || vars[i].defInt == 1)
  }

  // ---- Icons ----

  predicate Differs(v: Variable, n: int32, s: wstring) {
    match v.kind
    case IntControl => n != v.defInt
    case BoolControl => n != v.defInt
    case StringControl => s != v.defString
    case SeparatorControl => false
  }

  /** What an icon says of a control: whether the saved and the current value differ from the default. */
  function IconFor(v: Variable, saved: bool, current: bool): Icon {
    if v.kind.SeparatorControl? then Separator
    else if saved then (if current then NonDefault else ModifiedDefault)
    else (if current then ModifiedNonDefault else Default)
  }

  /** The transition on an edit that leaves the value at its default, or away from it. */
  function NextIcon(icon: Icon, current: bool): Icon {
    if !current then
      (if icon == ModifiedNonDefault then Default else if icon == NonDefault then ModifiedDefault else icon)
    else
      (if icon == Default then ModifiedNonDefault else if icon == ModifiedDefault then NonDefault else icon)
  }

  /** An icon encodes exactly two facts, and an edit changes exactly the second. */
  lemma IconEncodesPair(v: Variable, saved: bool, before: bool, current: bool, other: bool, otherCurrent: bool)
    requires !v.kind.SeparatorControl?
    ensures NextIcon(IconFor(v, saved, before), current) == IconFor(v, saved, current)
    ensures IconFor(v, saved, current) == IconFor(v, other, otherCurrent) <==> saved == other && current == otherCurrent
  {
  }

  lemma DiffersMeans(v: Variable, n: int32, s: wstring)
    ensures Numeric(v) <==> v.kind == IntControl || v.kind == BoolControl
    ensures Numeric(v) ==> (Differs(v, n, s) <==> n != v.defInt)
    ensures v.kind.StringControl? ==> (Differs(v, n, s) <==> s != v.defString)
  {
  }

  /** Which icon stands for which pair. */
  lemma IconsMean(v: Variable)
    ensures v.kind.SeparatorControl? ==> forall saved, current :: IconFor(v, saved, current) == Separator
    ensures !v.kind.SeparatorControl? ==>
              && IconFor(v, false, false) == Default && IconFor(v, true, true) == NonDefault
              && IconFor(v, false, true) == ModifiedNonDefault && IconFor(v, true, false) == ModifiedDefault
  {
  }

  // ---- The registry ----

  function ToDword(n: int32): uint32 { n % TWO32 }

  function FromDword(w: uint32): int32 { if w < 0x8000_0000 then w else w - TWO32 }

  /** The four bytes of a number, lowest first. */
  function IntBytes(n: int32): (b: seq<byte>)
    ensures |b| == 4
  {
    var low, high := ToDword(n) % 0x1_0000, ToDword(n) / 0x1_0000;
    [low % 256, low / 256, high % 256, high / 256]
  }

  function StringBytes(s: wstring): (b: seq<byte>)
    ensures |b| == 2 * |s|
  {
    seq(2 * |s|, i requires 0 <= i < 2 * |s| => if i % 2 == 0 then s[i / 2] % 256 else s[i / 2] / 256)
  }

  const BUFFER_BYTES: nat := 256
  const BUFFER_CHARS: nat := 128

  function Zeros(n: nat): (s: seq<byte>)
    ensures |s| == n
  {
    seq(n, _ => 0)
  }

  /** What is in the reader's buffer, zeros at first, after reading a value; a value that does not fit is not read. */
  function Buffer(v: RegistryValue): (b: seq<byte>)
    requires |v.bytes| <= BUFFER_BYTES
    ensures |b| == BUFFER_BYTES
  {
    v.bytes + Zeros(BUFFER_BYTES - |v.bytes|)
  }

  /** Two bytes as a 16-bit unit, and two units as a 32-bit word, lowest first. */
  function Unit(low: byte, high: byte): wchar {
    var h: nat := high;
    low + 256 * h
  }

  function Word(low: wchar, high: wchar): uint32 {
    var h: nat := high;
    low + 0x1_0000 * h
  }

  lemma UnitSplits(low: byte, high: byte, unit: wchar)
    ensures unit == Unit(low, high) <==> low == unit % 256 && high == unit / 256
  {
  }

  lemma WordSplits(low: wchar, high: wchar, word: uint32)
    ensures word == Word(low, high) <==> low == word % 0x1_0000 && high == word / 0x1_0000
  {
  }

  lemma DwordRoundTrip(n: int32, w: uint32)
    ensures FromDword(w) == n <==> ToDword(n) == w
  {
  }

  function IntIn(b: seq<byte>): int32
    requires |b| >= 4
  {
    FromDword(Word(Unit(b[0], b[1]), Unit(b[2], b[3])))
  }

  function StringIn(b: seq<byte>): (s: wstring)
    requires |b| == BUFFER_BYTES
    ensures |s| == BUFFER_CHARS
  {
    seq(BUFFER_CHARS, i requires 0 <= i < BUFFER_CHARS => Unit(b[2 * i], b[2 * i + 1]))
  }

  lemma IntReadsBack(n: int32)
    ensures IntIn(Buffer(RegistryValue(Dword, IntBytes(n)))) == n
  {
    hide Unit, Word, ToDword, FromDword;
    var word := ToDword(n);
    var low, high := word % 0x1_0000, word / 0x1_0000;
    UnitSplits(low % 256, low / 256, low);
    UnitSplits(high % 256, high / 256, high);
    WordSplits(low, high, word);
    DwordRoundTrip(n, word);
  }

  lemma IntBytesOf(b: seq<byte>)
    requires |b| == 4
    ensures IntBytes(IntIn(b)) == b
  {
    hide Unit, Word, ToDword, FromDword;
    var low, high := Unit(b[0], b[1]), Unit(b[2], b[3]);
    UnitSplits(b[0], b[1], low);
    UnitSplits(b[2], b[3], high);
    WordSplits(low, high, Word(low, high));
    DwordRoundTrip(IntIn(b), Word(low, high));
  }

  /** All 128 units of the buffer become the value: shorter text comes back longer. */
  lemma StringReadsBack(s: wstring)
    requires |s| <= BUFFER_CHARS
    ensures StringIn(Buffer(RegistryValue(Sz, StringBytes(s)))) == s <==> |s| == BUFFER_CHARS
  {
    var b := Buffer(RegistryValue(Sz, StringBytes(s)));
    if |s| == BUFFER_CHARS {
      hide Unit;
      forall i | 0 <= i < BUFFER_CHARS ensures StringIn(b)[i] == s[i] {
        assert b[2 * i] == s[i] % 256 && b[2 * i + 1] == s[i] / 256;
        UnitSplits(s[i] % 256, s[i] / 256, s[i]);
      }
    }
  }

  /** Numbers are stored in four bytes, lowest first, and text in two bytes a unit. */
  lemma BytesMean(n: int32, s: wstring, i: nat)
    requires i < |s|
    ensures var b := IntBytes(n);
            var b0: nat, b1: nat, b2: nat, b3: nat := b[0], b[1], b[2], b[3];
            b0 + 256 * b1 + 65_536 * b2 + 16_777_216 * b3 == if n >= 0 then n else n + 4_294_967_296
    ensures var low: nat, high: nat := StringBytes(s)[2 * i], StringBytes(s)[2 * i + 1]; low + 256 * high == s[i]
  {
    var word := ToDword(n);
    var low, high := word % 0x1_0000, word / 0x1_0000;
    assert low == low % 256 + 256 * (low / 256) && high == high % 256 + 256 * (high / 256);
    assert (2 * i) / 2 == i && (2 * i + 1) / 2 == i;
  }

  function Stored(v: Variable, n: int32, s: wstring): RegistryValue {
    if v.kind.StringControl? then RegistryValue(Sz, StringBytes(s)) else RegistryValue(Dword, IntBytes(n))
  }

  /** Writing a control stores a value that differs from the default and deletes any other. */
  function WriteOne(reg: Registry, v: Variable, n: int32, s: wstring): Registry {
    if v.kind.SeparatorControl? then reg
    else if Differs(v, n, s) then reg[v.name := Stored(v, n, s)]
    else reg - {v.name}
  }

  function WriteAll(reg: Registry, vars: seq<Variable>, ints: seq<int32>, strings: seq<wstring>, count: nat): Registry
    requires count <= |vars| == |ints| == |strings|
  {
    if count == 0 then reg
    else WriteOne(WriteAll(reg, vars, ints, strings, count - 1), vars[count - 1], ints[count - 1], strings[count - 1])
  }

  predicate Readable(reg: Registry, v: Variable) { v.name in reg && |reg[v.name].bytes| <= BUFFER_BYTES }

  /** The number that a stored value gives, and the current number when none can be read. */
  function ReadInt(reg: Registry, v: Variable, current: int32): int32 {
    if !Readable(reg, v) then current
    else
      match v.kind
      case BoolControl => if IntIn(Buffer(reg[v.name])) != 0 then 1 else 0
      case IntControl => IntIn(Buffer(reg[v.name]))
      case _ => current
  }

  function ReadString(reg: Registry, v: Variable, current: wstring): wstring {
    if v.kind.StringControl? && Readable(reg, v) then StringIn(Buffer(reg[v.name])) else current
  }

  /** Byte `k` of a stored value, zero past its end. */
  ghost function ByteAt(stored: RegistryValue, k: nat): (n: nat)
    ensures n < 256
  {
    if k < |stored.bytes| then stored.bytes[k] else 0
  }

  /**
   What is read for a control, from a value of any type: nothing if it is longer than the buffer of 256 bytes, and else
   its first four bytes as a number, lowest first, whether these are not all zero, or 128 units of two bytes.
   */
  lemma ReadingMeans(reg: Registry, v: Variable, n: int32, s: wstring)
    ensures v.name !in reg || |reg[v.name].bytes| > 256 ==> ReadInt(reg, v, n) == n && ReadString(reg, v, s) == s
    ensures v.name in reg && |reg[v.name].bytes| <= 256 ==>
              var stored, i, text := reg[v.name], ReadInt(reg, v, n), ReadString(reg, v, s);
              var word := ByteAt(stored, 0) + 256 * ByteAt(stored, 1) + 65_536 * ByteAt(stored, 2) + 16_777_216 * ByteAt(stored, 3);
              match v.kind
              case IntControl => text == s && word == if i >= 0 then i else i + 4_294_967_296
              case BoolControl => text == s && i == if word == 0 then 0 else 1
              case StringControl =>
                i == n && |text| == 128
                && forall k :: 0 <= k < 128 ==> text[k] == ByteAt(stored, 2 * k) + 256 * ByteAt(stored, 2 * k + 1)
              case SeparatorControl => i == n && text == s
  {
    if v.name in reg && |reg[v.name].bytes| <= 256 {
      var stored := reg[v.name];
      var b := Buffer(stored);
      assert forall k :: 0 <= k < 256 ==> b[k] == ByteAt(stored, k);
      WordMeans(b[0], b[1], b[2], b[3]);
      forall k | 0 <= k < 128 ensures StringIn(b)[k] == ByteAt(stored, 2 * k) + 256 * ByteAt(stored, 2 * k + 1) {
        UnitMeans(b[2 * k], b[2 * k + 1]);
      }
      hide Buffer, ByteAt, FromDword, Word, Unit, StringIn;
    }
  }

  lemma UnitMeans(low: byte, high: byte)
    ensures var h: nat := high; Unit(low, high) == low + 256 * h
  {
  }

  lemma WordMeans(b0: byte, b1: byte, b2: byte, b3: byte)
    ensures var n1: nat, n2: nat, n3: nat := b1, b2, b3;
            var word, i := b0 + 256 * n1 + 65_536 * n2 + 16_777_216 * n3, FromDword(Word(Unit(b0, b1), Unit(b2, b3)));
            word == (if i >= 0 then i else i + 4_294_967_296) && (i == 0 <==> word == 0)
  {
  }

  lemma {:induction false} WriteAllAt(reg: Registry, vars: seq<Variable>, ints: seq<int32>, strings: seq<wstring>,
                                          count: nat, i: nat)
    requires i < count <= |vars| == |ints| == |strings| && ProperTable(vars) && !vars[i].kind.SeparatorControl?
    ensures var all, v := WriteAll(reg, vars, ints, strings, count), vars[i];
            && (v.name in all <==> Differs(v, ints[i], strings[i]))
            && (v.name in all ==> all[v.name] == Stored(v, ints[i], strings[i]))
  {
    if i < count - 1 {
      WriteAllAt(reg, vars, ints, strings, count - 1, i);
    }
  }

  /** Whatever is not a control's, or is a separator's, stays in the registry as it was. */
  lemma {:induction false} OthersUntouched(reg: Registry, vars: seq<Variable>, ints: seq<int32>, strings: seq<wstring>,
                                           count: nat, name: string)
    requires count <= |vars| == |ints| == |strings|
    requires forall i :: 0 <= i < count && vars[i].name == name ==> vars[i].kind.SeparatorControl?
    ensures var all := WriteAll(reg, vars, ints, strings, count);
            (name in all <==> name in reg) && (name in reg ==> all[name] == reg[name])
  {
    if count > 0 {
      OthersUntouched(reg, vars, ints, strings, count - 1, name);
    }
  }

  /** Whatever was stored before, a numeric control is restored by reading into its default. */
  lemma NumbersRestored(reg: Registry, vars: seq<Variable>, ints: seq<int32>, strings: seq<wstring>, i: nat)
    requires i < |vars| == |ints| == |strings| && ProperTable(vars) && Numeric(vars[i])
    requires vars[i].kind.BoolControl? ==> ints[i] == 0 || ints[i] == 1
    ensures ReadInt(WriteAll(reg, vars, ints, strings, |vars|), vars[i], vars[i].defInt) == ints[i]
  {
    hide WriteAll, IntIn, IntBytes, Buffer;
    WriteAllAt(reg, vars, ints, strings, |vars|, i);
    IntReadsBack(ints[i]);
  }

  /** A string control is restored exactly when it has its default or is 128 characters long. */
  lemma StringsRestored(reg: Registry, vars: seq<Variable>, ints: seq<int32>, strings: seq<wstring>, i: nat)
    requires i < |vars| == |ints| == |strings| && ProperTable(vars) && vars[i].kind.StringControl?
    ensures ReadString(WriteAll(reg, vars, ints, strings, |vars|), vars[i], vars[i].defString) == strings[i]
            <==> strings[i] == vars[i].defString || |strings[i]| == BUFFER_CHARS
  {
    hide WriteAll, StringIn, StringBytes, Buffer;
    WriteAllAt(reg, vars, ints, strings, |vars|, i);
    if |strings[i]| <= BUFFER_CHARS {
      StringReadsBack(strings[i]);
    }
  }

  /** Text shorter than the buffer comes back padded with zeros, and longer text not at all. */
  lemma StringComesBack(reg: Registry, vars: seq<Variable>, ints: seq<int32>, strings: seq<wstring>, i: nat)
    requires i < |vars| == |ints| == |strings| && ProperTable(vars) && vars[i].kind.StringControl?
    requires strings[i] != vars[i].defString
    ensures var all := WriteAll(reg, vars, ints, strings, |vars|);
            var s, r := strings[i], ReadString(all, vars[i], vars[i].defString);
            && vars[i].name in all && all[vars[i].name].kind == Sz
            && (if |s| > 128 then r == vars[i].defString
                else |r| == 128 && s <= r && forall k :: |s| <= k < 128 ==> r[k] == 0)
  {
    hide WriteAll;
    WriteAllAt(reg, vars, ints, strings, |vars|, i);
    var s := strings[i];
    if |s| <= 128 {
      PaddedWithZeros(s);
    }
    hide Buffer, StringIn, StringBytes;
  }

  lemma PaddedWithZeros(s: wstring)
    requires |s| <= 128
    ensures var r := StringIn(Buffer(RegistryValue(Sz, StringBytes(s))));
            s <= r && forall k :: |s| <= k < 128 ==> r[k] == 0
  {
    var b := Buffer(RegistryValue(Sz, StringBytes(s)));
    hide Unit;
    forall i | 0 <= i < 128 ensures StringIn(b)[i] == if i < |s| then s[i] else 0 {
      if i < |s| {
        assert b[2 * i] == s[i] % 256 && b[2 * i + 1] == s[i] / 256;
        UnitSplits(s[i] % 256, s[i] / 256, s[i]);
      } else {
        UnitSplits(0, 0, 0);
      }
    }
  }

  /** What is stored for a numeric control is a saved value that differs from the default, as the application writes it. */
  ghost predicate Tells(reg: Registry, v: Variable, saved: int32) {
    && (v.name in reg <==> saved != v.defInt)
    && (v.name in reg ==> reg[v.name] == RegistryValue(Dword, IntBytes(saved)))
  }

  /** A value the application could have stored: four bytes of a number, not the default's, and 0 or 1 for a bool. */
  predicate Canonical(v: Variable, stored: RegistryValue) {
    && stored.kind.Dword? && |stored.bytes| == 4
    && IntIn(stored.bytes) != v.defInt
    && (v.kind.BoolControl? ==> IntIn(stored.bytes) == 0 || IntIn(stored.bytes) == 1)
  }

  lemma BufferStart(v: RegistryValue)
    requires 4 <= |v.bytes| <= BUFFER_BYTES
    ensures IntIn(Buffer(v)) == IntIn(v.bytes)
  {
  }

  /** After loading any registry, it holds exactly the loaded value of a control if and only if what it holds is canonical. */
  lemma LoadedTells(reg: Registry, v: Variable)
    requires Numeric(v) && (v.kind.BoolControl? ==> v.defInt == 0 || v.defInt == 1)
    ensures Tells(reg, v, ReadInt(reg, v, v.defInt)) <==> v.name in reg ==> Canonical(v, reg[v.name])
  {
    hide IntIn, Buffer, IntBytes;
    if v.name in reg {
      var stored := reg[v.name];
      if |stored.bytes| == 4 {
        BufferStart(stored);
        IntBytesOf(stored.bytes);
        IntReadsBack(IntIn(stored.bytes));
        IntReadsBack(1);
        IntReadsBack(0);
      }
    }
  }

  /** Two registries set by hand that the application loads but would not have written: a default, and a bool stored as 2. */
  lemma HandSetRegistries(v: Variable)
    requires Numeric(v) && (v.kind.BoolControl? ==> v.defInt == 0 || v.defInt == 1)
    ensures var reg := map[v.name := RegistryValue(Dword, IntBytes(v.defInt))];
            ReadInt(reg, v, v.defInt) == v.defInt && !Tells(reg, v, v.defInt)
    ensures var reg := map[v.name := RegistryValue(Dword, IntBytes(2))];
            v.kind.BoolControl? ==> ReadInt(reg, v, v.defInt) == 1 && !Tells(reg, v, 1)
  {
    hide IntIn, Buffer, IntBytes;
    IntReadsBack(v.defInt);
    IntReadsBack(2);
    LoadedTells(map[v.name := RegistryValue(Dword, IntBytes(2))], v);
    IntReadsBack(1);
    if v.kind.BoolControl? {
      BufferStart(RegistryValue(Dword, IntBytes(2)));
    }
  }

  // ---- The page ----

  /** What the control's window holds when it changes. */
  datatype Input = Checked(b: bool) | Number(n: int32) | Typed(s: wstring)

  predicate Fits(v: Variable, input: Input) {
    match v.kind
    case IntControl => input.Number?
    case BoolControl => input.Checked?
    case StringControl => input.Typed?
    case SeparatorControl => true
  }

  class Page {
    const vars: seq<Variable>
    var icons: seq<Icon>
    var ints: seq<int32>
    var strings: seq<wstring>
    var registry: Registry
    /** The values last written to, or read from, the registry. */
    ghost var savedInts: seq<int32>
    ghost var savedStrings: seq<wstring>

    ghost predicate Sized()
      reads this
    {
      |icons| == |ints| == |strings| == |vars|
    }

    ghost predicate BoolsProper()
      reads this
      requires Sized() && |savedInts| == |vars|
    {
      forall i :: 0 <= i < |vars| && vars[i].kind.BoolControl? ==>
        (ints[i] == 0 || ints[i] == 1) && (savedInts[i] == 0 || savedInts[i] == 1)
    }

    /** Every icon encodes its control's saved and current state. */
    ghost predicate IconsTell()
      reads this
      requires Sized() && |savedInts| == |savedStrings| == |vars|
    {
      forall i :: 0 <= i < |vars| ==>
        icons[i] == IconFor(vars[i], Differs(vars[i], savedInts[i], savedStrings[i]), Differs(vars[i], ints[i], strings[i]))
    }

    /** For numeric controls the registry holds exactly the saved values that differ from the default. */
    ghost predicate RegistryTells()
      reads this
      requires |savedInts| == |vars|
    {
      forall i :: 0 <= i < |vars| && Numeric(vars[i]) ==> Tells(registry, vars[i], savedInts[i])
    }

    /** For numeric controls the saved values are what the registry gives. */
    ghost predicate SavedInRegistry()
      reads this
      requires |savedInts| == |vars|
    {
      forall i :: 0 <= i < |vars| && Numeric(vars[i]) ==> savedInts[i] == ReadInt(registry, vars[i], vars[i].defInt)
    }

    ghost predicate Valid()
      reads this
    {
      && ProperTable(vars) && Sized() && |savedInts| == |savedStrings| == |vars|
      && BoolsProper() && IconsTell() && SavedInRegistry()
    }

    /** The current values are what reading the registry into defaults gives. */
    ghost predicate Loaded()
      reads this
      requires Sized()
    {
      forall i :: 0 <= i < |vars| ==>
        && ints[i] == ReadInt(registry, vars[i], vars[i].defInt)
        && strings[i] == ReadString(registry, vars[i], vars[i].defString)
    }

    /** Starts from any registry. It holds exactly the saved values when all it has for numeric controls is canonical. */
    constructor (vars: seq<Variable>, registry: Registry)
      requires ProperTable(vars)
      ensures Valid() && this.vars == vars && this.registry == registry
      ensures ints == savedInts && strings == savedStrings && Loaded()
      ensures RegistryTells() <==> forall i :: 0 <= i < |vars| && Numeric(vars[i]) && vars[i].name in registry ==>
                                     Canonical(vars[i], registry[vars[i].name])
    {
      this.vars, this.registry := vars, registry;
      icons, ints, strings := seq(|vars|, _ => Default), seq(|vars|, _ => 0), seq(|vars|, _ => []);
      savedInts, savedStrings := [], [];
      new;
      hide ReadString, Canonical, Tells;
      SetDefaultStates();
      ReadSettingsFromRegistry();
      UpdateIconStates();
      savedInts, savedStrings := ints, strings;
      forall i | 0 <= i < |vars| && Numeric(vars[i])
        ensures Tells(registry, vars[i], savedInts[i])
                <==> vars[i].name in registry ==> Canonical(vars[i], registry[vars[i].name])
      {
        LoadedTells(registry, vars[i]);
      }
    }

    method SetDefaultStates()
      requires Sized()
      modifies `icons, `ints, `strings
      ensures Sized()
      ensures forall i :: 0 <= i < |vars| ==> ints[i] == vars[i].defInt && strings[i] == vars[i].defString
      ensures forall i :: 0 <= i < |vars| ==> icons[i] == IconFor(vars[i], false, false)
    {
      for i := 0 to |vars|
        invariant Sized()
        invariant forall k :: 0 <= k < i ==> ints[k] == vars[k].defInt && strings[k] == vars[k].defString
        invariant forall k :: 0 <= k < i ==> icons[k] == IconFor(vars[k], false, false)
      {
        ints, strings := ints[i := vars[i].defInt], strings[i := vars[i].defString];
        icons := icons[i := if vars[i].kind.SeparatorControl? then Separator else Default];
      }
    }

    /** Icons as if the current values were the saved ones. */
    method UpdateIconStates()
      requires Sized()
      modifies `icons
      ensures Sized()
      ensures forall i :: 0 <= i < |vars| ==>
                icons[i] == IconFor(vars[i], Differs(vars[i], ints[i], strings[i]), Differs(vars[i], ints[i], strings[i]))
    {
      for i := 0 to |vars|
        invariant Sized()
        invariant forall k :: 0 <= k < i ==>
          icons[k] == IconFor(vars[k], Differs(vars[k], ints[k], strings[k]), Differs(vars[k], ints[k], strings[k]))
      {
        match vars[i].kind {
          case BoolControl => icons := icons[i := if ints[i] == vars[i].defInt then Default else NonDefault];
          case IntControl => icons := icons[i := if ints[i] == vars[i].defInt then Default else NonDefault];
          case StringControl => icons := icons[i := if strings[i] == vars[i].defString then Default else NonDefault];
          case SeparatorControl => icons := icons[i := Separator];
        }
      }
    }

    method ReadSettingsFromRegistry()
      requires Sized()
      modifies `icons, `ints, `strings
      ensures Sized()
      ensures forall i :: 0 <= i < |vars| ==>
                && ints[i] == ReadInt(registry, vars[i], old(ints)[i])
                && strings[i] == ReadString(registry, vars[i], old(strings)[i])
    {
      for i := 0 to |vars|
        invariant Sized()
        invariant forall k :: 0 <= k < i ==>
          ints[k] == ReadInt(registry, vars[k], old(ints)[k]) && strings[k] == ReadString(registry, vars[k], old(strings)[k])
        invariant forall k :: i <= k < |vars| ==> ints[k] == old(ints)[k] && strings[k] == old(strings)[k]
      {
        ints := ints[i := ReadInt(registry, vars[i], ints[i])];
        strings := strings[i := ReadString(registry, vars[i], strings[i])];
        if Readable(registry, vars[i]) {
          icons := icons[i := NonDefault];
        }
      }
    }

    method WriteSettingsToRegistry()
      requires Sized()
      modifies `registry
      ensures registry == WriteAll(old(registry), vars, ints, strings, |vars|)
    {
      for i := 0 to |vars|
        invariant registry == WriteAll(old(registry), vars, ints, strings, i)
      {
        match vars[i].kind {
          case SeparatorControl =>
          case StringControl =>
            if strings[i] != vars[i].defString {
              registry := registry[vars[i].name := RegistryValue(Sz, StringBytes(strings[i]))];
            } else {
              registry := registry - {vars[i].name};
            }
          case _ =>
            if ints[i] != vars[i].defInt {
              registry := registry[vars[i].name := RegistryValue(Dword, IntBytes(ints[i]))];
            } else {
              registry := registry - {vars[i].name};
            }
        }
      }
    }

    /** An edit changes one value and says so in its icon; nothing is saved. */
    method UpdateVarState(i: nat, input: Input)
      requires Valid() && i < |vars| && Fits(vars[i], input)
      modifies `icons, `ints, `strings
      ensures Valid()
      ensures ints == match vars[i].kind
                      case BoolControl => old(ints)[i := if input.b then 1 else 0]
                      case IntControl => old(ints)[i := input.n]
                      case _ => old(ints)
      ensures strings == if vars[i].kind.StringControl? then old(strings)[i := input.s] else old(strings)
      ensures savedInts == old(savedInts) && RegistryTells() == old(RegistryTells())
    {
      var current := false;
      match vars[i].kind {
        case BoolControl =>
          ints := ints[i := if input.b then 1 else 0];
          current := ints[i] != vars[i].defInt;
        case IntControl =>
          ints := ints[i := input.n];
          current := ints[i] != vars[i].defInt;
        case StringControl =>
          strings := strings[i := input.s];
          current := strings[i] != vars[i].defString;
        case SeparatorControl =>
      }
      hide ReadInt, Tells, IconFor, NextIcon;
      IconsMean(vars[i]);
      if vars[i].kind.SeparatorControl? {
        icons := icons[i := Separator];
      } else {
        ghost var saved := Differs(vars[i], savedInts[i], savedStrings[i]);
        IconEncodesPair(vars[i], saved, Differs(vars[i], old(ints)[i], old(strings)[i]), current, saved, current);
        icons := icons[i := NextIcon(icons[i], current)];
      }
    }

    method ApplyChanges()
      requires Valid()
      modifies this
      ensures Valid() && ints == old(ints) && strings == old(strings)
      ensures savedInts == ints && savedStrings == strings && RegistryTells()
      ensures registry == WriteAll(old(registry), vars, ints, strings, |vars|)
    {
      hide WriteAll, ReadInt, Tells;
      ghost var before := registry;
      WriteSettingsToRegistry();
      UpdateIconStates();
      savedInts, savedStrings := ints, strings;
      NumbersStored(before, vars, ints, strings);
    }

    method ResetDefaults()
      requires Valid()
      modifies this
      ensures Valid() && savedInts == ints && savedStrings == strings && RegistryTells()
      ensures forall i :: 0 <= i < |vars| ==> ints[i] == vars[i].defInt && strings[i] == vars[i].defString
      ensures registry == WriteAll(old(registry), vars, ints, strings, |vars|)
    {
      hide WriteAll, ReadInt, Tells;
      ghost var before := registry;
      SetDefaultStates();
      WriteSettingsToRegistry();
      savedInts, savedStrings := ints, strings;
      NumbersStored(before, vars, ints, strings);
    }

    /** Starting again: defaults, then whatever the registry has. Numeric controls get back what was saved. */
    method Reload()
      requires Valid()
      modifies this
      ensures Valid() && registry == old(registry) && savedInts == ints && savedStrings == strings && Loaded()
      ensures forall i :: 0 <= i < |vars| && Numeric(vars[i]) ==> ints[i] == old(savedInts)[i]
      ensures RegistryTells() == old(RegistryTells())
    {
      hide Tells, ReadString;
      SetDefaultStates();
      ReadSettingsFromRegistry();
      UpdateIconStates();
      savedInts, savedStrings := ints, strings;
    }
  }

  /** What was just written is read back, and tells every numeric control's value. */
  lemma NumbersStored(reg: Registry, vars: seq<Variable>, ints: seq<int32>, strings: seq<wstring>)
    requires |vars| == |ints| == |strings| && ProperTable(vars)
    requires forall i :: 0 <= i < |vars| && vars[i].kind.BoolControl? ==> ints[i] == 0 || ints[i] == 1
    ensures var all := WriteAll(reg, vars, ints, strings, |vars|);
            forall i :: 0 <= i < |vars| && Numeric(vars[i]) ==>
              Tells(all, vars[i], ints[i]) && ReadInt(all, vars[i], vars[i].defInt) == ints[i]
  {
    hide WriteAll, ReadInt;
    var all := WriteAll(reg, vars, ints, strings, |vars|);
    forall i | 0 <= i < |vars| && Numeric(vars[i])
      ensures Tells(all, vars[i], ints[i]) && ReadInt(all, vars[i], vars[i].defInt) == ints[i]
    {
      WriteAllAt(reg, vars, ints, strings, |vars|, i);
      NumbersRestored(reg, vars, ints, strings, i);
    }
  }
}
