/** Controls read from the environment, then a file in the home directory, then the system's file. */
module ConfigFile {
  import opened Text
  import opened Trimming

  /** What was found: text copied out, or the text handed to the library's number conversion. */
  datatype Setting = Number(text: string) | String(text: string)

  /** The size by which a caller asks for a number: that of an unsigned int. */
  const NUMBER_SIZE: nat := 4

  // ---- Lines ----

  function LineEnd(s: string): (k: nat)
    ensures k <= |s|
  {
    if s == "" || s[0] == '\n' then 0 else 1 + LineEnd(s[1..])
  }

  /** Lines as successive reads deliver them: a final newline is followed by one more, empty, line. */
  function Lines(s: string): seq<string>
    decreases |s|
  {
    var k := LineEnd(s);
    if k == |s| then [s] else [s[..k]] + Lines(s[k + 1..])
  }

  // ---- One line ----

  predicate IsBlank(c: char) { c == ' ' || c == '\t' }

  function EqualsAt(s: string): (k: nat)
    ensures k <= |s|
  {
    if s == "" || s[0] == '=' then 0 else 1 + EqualsAt(s[1..])
  }

  predicate IsComment(line: string) { ";" <= line || "#" <= line || "//" <= line }

  /** The value a line gives for `name`, if it does. */
  function LineValue(line: string, name: string): Option<string> {
    var k := EqualsAt(line);
    if line == "" || IsComment(line) || k == |line| || Trim(IsBlank, line[..k]) != name then None
    else Some(Trim(IsBlank, line[k + 1..]))
  }

  /** A number is always taken; text only if it fits the caller's buffer with its terminator. */
  function Accept(value: string, size: nat): Option<Setting> {
    if size == NUMBER_SIZE then Some(Number(value)) else if |value| < size then Some(String(value)) else None
  }

  function LineMatch(line: string, name: string, size: nat): Option<Setting> {
    match LineValue(line, name)
    case Some(value) => Accept(value, size)
    case None => None
  }

  // ---- Files ----

  /** `r` is what the first line with an acceptable value gives, and None when there is no such line. */
  ghost predicate IsFirstMatch(lines: seq<string>, name: string, size: nat, r: Option<Setting>) {
    if r.None? then forall i :: 0 <= i < |lines| ==> LineMatch(lines[i], name, size) == None
    else exists i :: 0 <= i < |lines| && LineMatch(lines[i], name, size) == r
                     && forall j :: 0 <= j < i ==> LineMatch(lines[j], name, size) == None
  }

  lemma FirstMatchUnique(lines: seq<string>, name: string, size: nat, r: Option<Setting>, r': Option<Setting>)
    requires IsFirstMatch(lines, name, size, r) && IsFirstMatch(lines, name, size, r')
    ensures r == r'
  {
    hide LineMatch;
    if r.Some? {
      var i :| 0 <= i < |lines| && LineMatch(lines[i], name, size) == r
               && forall k :: 0 <= k < i ==> LineMatch(lines[k], name, size) == None;
      if r'.Some? {
        var j :| 0 <= j < |lines| && LineMatch(lines[j], name, size) == r'
                 && forall k :: 0 <= k < j ==> LineMatch(lines[k], name, size) == None;
        assert i == j;
      }
    }
  }

  predicate NoMatch(lines: seq<string>, name: string, size: nat) {
    forall i :: 0 <= i < |lines| ==> LineMatch(lines[i], name, size) == None
  }

  lemma LastMatches(before: seq<string>, line: string, after: seq<string>, name: string, size: nat)
    requires NoMatch(before, name, size) && LineMatch(line, name, size).Some?
    ensures IsFirstMatch(before + [line] + after, name, size, LineMatch(line, name, size))
  {
    hide LineMatch;
    var all := before + [line] + after;
    assert all[|before|] == line;
    assert forall j :: 0 <= j < |before| ==> all[j] == before[j];
  }

  lemma NextLine(s: string)
    ensures var k := LineEnd(s); Lines(s) == [s[..k]] + (if k == |s| then [] else Lines(s[k + 1..]))
  {
    hide LineEnd;
    assert s[..|s|] == s;
  }

  method ControlInLine(s: string, name: string, size: nat) returns (r: Option<Setting>)
    ensures r == LineMatch(s, name, size)
  {
    hide Trim, EqualsAt;
    r := None;
    if |s| == 0 {
      return;
    }
    if ";" <= s || "#" <= s || "//" <= s {
      return;
    }
    var pos := EqualsAt(s);
    if pos < |s| {
      var variable, value := Trim(IsBlank, s[..pos]), Trim(IsBlank, s[pos + 1..]);
      if variable == name {
        if size == NUMBER_SIZE {
          r := Some(Number(value));
        } else if |value| < size {
          r := Some(String(value));
        }
      }
    }
  }

  /** Reads lines until one matches or the file ends; a file that cannot be opened has none. */
  method GetControlFromFile(file: Option<string>, name: string, size: nat) returns (r: Option<Setting>)
    ensures IsFirstMatch(if file.Some? then Lines(file.value) else [], name, size, r)
  {
    hide LineMatch, Lines, LineEnd;
    r := None;
    if file.None? {
      return;
    }
    ghost var seen: seq<string> := [];
    var rest, eof := file.value, false;
    while !eof
      invariant if eof then Lines(file.value) == seen else Lines(file.value) == seen + Lines(rest)
      invariant r.None? && NoMatch(seen, name, size)
      decreases if eof then 0 else 1, |rest|
    {
      var k := LineEnd(rest);
      var s := rest[..k];
      NextLine(rest);
      r := ControlInLine(s, name, size);
      ghost var more := if k == |rest| then [] else Lines(rest[k + 1..]);
      assert Lines(file.value) == seen + [s] + more;
      if r.Some? {
        LastMatches(seen, s, more, name, size);
        return;
      }
      seen := seen + [s];
      if k == |rest| {
        eof := true;
      } else {
        rest := rest[k + 1..];
      }
    }
  }

  /** `home` is the file named by HOME, None when HOME is not set; each file is None when it cannot be opened. */
  method GetControl(env: Option<string>, home: Option<Option<string>>, system: Option<string>, name: string, size: nat)
    returns (r: Option<Setting>)
    ensures if env.Some? && Accept(env.value, size).Some? then r == Accept(env.value, size)
            else IsFirstMatch((if home.Some? && home.value.Some? then Lines(home.value.value) else [])
                              + (if system.Some? then Lines(system.value) else []), name, size, r)
  {
    if env.Some? && size == NUMBER_SIZE {
      return Some(Number(env.value));
    } else if env.Some? && |env.value| < size {
      return Some(String(env.value));
    }
    r := None;
    if home.Some? {
      r := GetControlFromFile(home.value, name, size);
    }
    ghost var first := if home.Some? && home.value.Some? then Lines(home.value.value) else [];
    ghost var second := if system.Some? then Lines(system.value) else [];
    ghost var r1 := r;
    if r.None? {
      r := GetControlFromFile(system, name, size);
    }
    MatchInEither(first, second, name, size, r1, r);
  }

  lemma MatchInEither(a: seq<string>, b: seq<string>, name: string, size: nat, r1: Option<Setting>, r: Option<Setting>)
    requires IsFirstMatch(a, name, size, r1)
    requires if r1.Some? then r == r1 else IsFirstMatch(b, name, size, r)
    ensures IsFirstMatch(a + b, name, size, r)
  {
    hide LineMatch;
    if r1.Some? {
      MatchInFirst(a, b, name, size, r1);
    } else {
      MatchInSecond(a, b, name, size, r);
    }
  }

  lemma MatchInFirst(a: seq<string>, b: seq<string>, name: string, size: nat, r: Option<Setting>)
    requires IsFirstMatch(a, name, size, r) && r.Some?
    ensures IsFirstMatch(a + b, name, size, r)
  {
    hide LineMatch;
    var i :| 0 <= i < |a| && LineMatch(a[i], name, size) == r
             && forall j :: 0 <= j < i ==> LineMatch(a[j], name, size) == None;
    assert (a + b)[i] == a[i] && forall j :: 0 <= j < i ==> (a + b)[j] == a[j];
  }

  lemma MatchInSecond(a: seq<string>, b: seq<string>, name: string, size: nat, r: Option<Setting>)
    requires IsFirstMatch(a, name, size, None) && IsFirstMatch(b, name, size, r)
    ensures IsFirstMatch(a + b, name, size, r)
  {
    hide LineMatch;
    var all := a + b;
    assert forall i :: 0 <= i < |a| ==> all[i] == a[i];
    assert forall i :: |a| <= i < |all| ==> all[i] == b[i - |a|];
    if r.Some? {
      var i :| 0 <= i < |b| && LineMatch(b[i], name, size) == r
               && forall j :: 0 <= j < i ==> LineMatch(b[j], name, size) == None;
      assert all[|a| + i] == b[i];
    }
  }

  // ---- What is written is read back ----

  datatype Entry =
    | Assign(before: string, name: string, around: string, after: string, value: string, end: string)
    | Other(line: string)

  function EntryLine(e: Entry): string {
    match e
    case Assign(before, name, around, after, value, end) =>
      (before + (name + around)) + ("=" + (after + (value + end)))
    case Other(line) => line
  }

  /** Padding is blanks, names are trimmed and hold no '=', no entry spans lines, and nothing else assigns. */
  predicate ProperEntry(e: Entry) {
    && '\n' !in EntryLine(e)
    && match e
       case Assign(before, name, around, after, value, end) =>
         && Blanks(IsBlank, before) && Blanks(IsBlank, around) && Blanks(IsBlank, after) && Blanks(IsBlank, end)
         && NoOuterBlanks(IsBlank, name) && '=' !in name
         && !IsComment(EntryLine(e))
       case Other(line) => line == "" || IsComment(line)
  }

  function FileOf(entries: seq<Entry>): string {
    if entries == [] then "" else EntryLine(entries[0]) + ("\n" + FileOf(entries[1..]))
  }

  predicate DistinctNames(entries: seq<Entry>) {
    forall i, j :: 0 <= i < j < |entries| && entries[i].Assign? && entries[j].Assign? ==> entries[i].name != entries[j].name
  }

  lemma AssignValue(e: Entry, name: string)
    requires ProperEntry(e) && e.Assign?
    ensures LineValue(EntryLine(e), name) == if e.name == name then Some(Trim(IsBlank, e.value)) else None
  {
    var left, right := e.before + (e.name + e.around), e.after + (e.value + e.end);
    var line := left + ("=" + right);
    NoEqualsLeft(e);
    TrimPadded(IsBlank, e.before, e.name, e.around);
    TrimPadded(IsBlank, e.after, e.value, e.end);
    TrimTrimmed(IsBlank, e.name);
    hide Trim, IsComment;
    SplitsAtEquals(left, right);
  }

  lemma NoEqualsLeft(e: Entry)
    requires ProperEntry(e) && e.Assign?
    ensures '=' !in e.before + (e.name + e.around)
  {
    assert forall i :: 0 <= i < |e.before| ==> IsBlank(e.before[i]);
    assert forall i :: 0 <= i < |e.around| ==> IsBlank(e.around[i]);
    hide EntryLine, IsComment;
  }

  lemma SplitsAtEquals(left: string, right: string)
    requires '=' !in left
    ensures var line := left + ("=" + right);
            EqualsAt(line) == |left| < |line| && line[..|left|] == left && line[|left| + 1..] == right
  {
    var line := left + ("=" + right);
    EqualsAfter(left, "=" + right);
    assert ("=" + right)[0] == '=';
  }

  lemma {:induction false} EqualsAfter(left: string, s: string)
    requires '=' !in left
    ensures EqualsAt(left + s) == |left| + EqualsAt(s)
  {
    if left == "" {
      assert left + s == s;
    } else {
      assert forall c :: c in left[1..] ==> c in left;
      EqualsAfter(left[1..], s);
      assert (left + s)[1..] == left[1..] + s;
    }
  }

  lemma {:induction false} LineEndAfter(line: string, s: string)
    requires '\n' !in line
    ensures LineEnd(line + s) == |line| + LineEnd(s)
  {
    if line == "" {
      assert line + s == s;
    } else {
      assert forall c :: c in line[1..] ==> c in line;
      LineEndAfter(line[1..], s);
      assert (line + s)[1..] == line[1..] + s;
    }
  }

  lemma LinesOfFile(line: string, rest: string)
    requires '\n' !in line
    ensures Lines(line + ("\n" + rest)) == [line] + Lines(rest)
  {
    var s := line + ("\n" + rest);
    LineEndAfter(line, "\n" + rest);
    assert ("\n" + rest)[0] == '\n';
    assert s[..|line|] == line && s[|line| + 1..] == rest;
    NextLine(s);
    hide Lines, LineEnd;
  }

  function EntryLines(entries: seq<Entry>): seq<string> {
    seq(|entries|, i requires 0 <= i < |entries| => EntryLine(entries[i]))
  }

  lemma {:induction false} FileLines(entries: seq<Entry>)
    requires forall i :: 0 <= i < |entries| ==> ProperEntry(entries[i])
    ensures Lines(FileOf(entries)) == EntryLines(entries) + [""]
  {
    if entries != [] {
      hide EntryLine, Lines;
      assert ProperEntry(entries[0]);
      FileLines(entries[1..]);
      LinesOfFile(EntryLine(entries[0]), FileOf(entries[1..]));
      assert EntryLines(entries) == [EntryLine(entries[0])] + EntryLines(entries[1..]);
      Regroup([EntryLine(entries[0])], EntryLines(entries[1..]), [""]);
    }
  }

  /**
   In a file of assignments to distinct names, padded at will and mixed with comments and blank lines, every
   assignment is found: the first match can only be its value without outer blanks, when the caller can take it.
   */
  lemma FileReadsBack(entries: seq<Entry>, k: nat, size: nat)
    requires (forall i :: 0 <= i < |entries| ==> ProperEntry(entries[i])) && DistinctNames(entries)
    requires k < |entries| && entries[k].Assign?
    ensures forall r :: IsFirstMatch(Lines(FileOf(entries)), entries[k].name, size, r)
                        <==> r == Accept(Trim(IsBlank, entries[k].value), size)
    ensures Trim(IsBlank, entries[k].value) == entries[k].value <==> NoOuterBlanks(IsBlank, entries[k].value)
  {
    hide ProperEntry, IsFirstMatch, Lines, LineValue, FileOf, EntryLine, Trim, Accept;
    var lines, name := Lines(FileOf(entries)), entries[k].name;
    TrimTrimmed(IsBlank, entries[k].value);
    FileLines(entries);
    forall i | 0 <= i < |entries|
      ensures LineValue(lines[i], name) == if i == k then Some(Trim(IsBlank, entries[k].value)) else None
    {
      assert ProperEntry(entries[i]) && lines[i] == EntryLine(entries[i]);
      if entries[i].Assign? {
        AssignValue(entries[i], name);
      } else {
        OtherValue(entries[i], name);
      }
    }
    OneMatch(lines, name, size, k);
    var found := Accept(Trim(IsBlank, entries[k].value), size);
    forall r | IsFirstMatch(lines, name, size, r) ensures r == found {
      FirstMatchUnique(lines, name, size, r, found);
    }
  }

  lemma OtherValue(e: Entry, name: string)
    requires ProperEntry(e) && e.Other?
    ensures LineValue(EntryLine(e), name) == None
  {
  }

  lemma OneMatch(lines: seq<string>, name: string, size: nat, k: nat)
    requires k < |lines| && LineValue(lines[k], name).Some?
    requires forall i :: 0 <= i < |lines| && i != k && lines[i] != "" ==> LineValue(lines[i], name) == None
    ensures IsFirstMatch(lines, name, size, Accept(LineValue(lines[k], name).value, size))
  {
    forall i | 0 <= i < |lines| && i != k ensures LineMatch(lines[i], name, size) == None {
    }
    assert LineMatch(lines[k], name, size) == Accept(LineValue(lines[k], name).value, size);
  }

  // ---- What a line says, character by character ----

  lemma BlanksAre(c: char)
    ensures IsBlank(c) <==> c in {' ', '\t'}
  {
  }

  lemma CommentsAre(line: string)
    ensures IsComment(line) <==> line != "" && (line[0] in {';', '#'} || (line[0] == '/' && |line| > 1 && line[1] == '/'))
  {
  }

  /** A number is recognised by its size; text must fit the caller's buffer with the terminator after it. */
  lemma AcceptMeans(value: string, size: nat)
    ensures Accept(value, size) == if size == 4 then Some(Number(value))
                                   else if |value| + 1 <= size then Some(String(value)) else None
  {
  }

  ghost predicate Padding(s: string) { forall i :: 0 <= i < |s| ==> s[i] in {' ', '\t'} }

  /** `line` is `name`, an equals sign and `value`, with padding around both. */
  ghost predicate Assigns(line: string, name: string, value: string) {
    exists a, b, c, d :: Padding(a) && Padding(b) && Padding(c) && Padding(d)
                         && line == (a + (name + b)) + ("=" + (c + (value + d)))
  }

  lemma PaddingIsBlank(s: string)
    ensures Padding(s) <==> Blanks(IsBlank, s)
  {
    assert forall i :: 0 <= i < |s| ==> (IsBlank(s[i]) <==> s[i] in {' ', '\t'});
  }

  lemma {:induction false} NoEqualsBefore(line: string)
    ensures '=' !in line[..EqualsAt(line)] && (EqualsAt(line) < |line| ==> line[EqualsAt(line)] == '=')
  {
    if line != "" && line[0] != '=' {
      NoEqualsBefore(line[1..]);
      assert line[..EqualsAt(line)] == [line[0]] + line[1..][..EqualsAt(line[1..])];
    }
  }

  /**
   A line gives `value` for `name` exactly if it is no comment, and is the name, an equals sign and the value in
   this order with spaces and tabs around them, which neither begins or ends with.
   */
  lemma LineGives(line: string, name: string, value: string)
    requires '=' !in name
    ensures LineValue(line, name) == Some(value)
            <==> !IsComment(line) && NoOuterBlanks(IsBlank, name) && NoOuterBlanks(IsBlank, value) && Assigns(line, name, value)
  {
    hide Trim, IsComment, EqualsAt, IsBlank;
    if !IsComment(line) && NoOuterBlanks(IsBlank, name) && NoOuterBlanks(IsBlank, value) && Assigns(line, name, value) {
      var a, b, c, d :| Padding(a) && Padding(b) && Padding(c) && Padding(d)
                        && line == (a + (name + b)) + ("=" + (c + (value + d)));
      PaddedGives(a, name, b, c, value, d);
    }
    if LineValue(line, name) == Some(value) {
      GivenIsPadded(line, name, value);
    }
  }

  lemma PaddedGives(a: string, name: string, b: string, c: string, value: string, d: string)
    requires Padding(a) && Padding(b) && Padding(c) && Padding(d) && '=' !in name
    requires NoOuterBlanks(IsBlank, name) && NoOuterBlanks(IsBlank, value)
    requires !IsComment((a + (name + b)) + ("=" + (c + (value + d))))
    ensures LineValue((a + (name + b)) + ("=" + (c + (value + d))), name) == Some(value)
  {
    hide Trim, IsComment, EqualsAt, IsBlank;
    PaddingIsBlank(a);
    PaddingIsBlank(b);
    PaddingIsBlank(c);
    PaddingIsBlank(d);
    var left, right := a + (name + b), c + (value + d);
    TrimPadded(IsBlank, a, name, b);
    TrimPadded(IsBlank, c, value, d);
    TrimTrimmed(IsBlank, name);
    TrimTrimmed(IsBlank, value);
    assert '=' !in a && '=' !in b;
    SplitsAtEquals(left, right);
  }

  lemma GivenIsPadded(line: string, name: string, value: string)
    requires LineValue(line, name) == Some(value)
    ensures !IsComment(line) && NoOuterBlanks(IsBlank, name) && NoOuterBlanks(IsBlank, value) && Assigns(line, name, value)
  {
    hide Trim, IsComment, EqualsAt, IsBlank;
    var k := EqualsAt(line);
    NoEqualsBefore(line);
    TrimIs(IsBlank, line[..k], name);
    TrimIs(IsBlank, line[k + 1..], value);
    var a, b :| Blanks(IsBlank, a) && Blanks(IsBlank, b) && line[..k] == a + (name + b);
    var c, d :| Blanks(IsBlank, c) && Blanks(IsBlank, d) && line[k + 1..] == c + (value + d);
    PaddingIsBlank(a);
    PaddingIsBlank(b);
    PaddingIsBlank(c);
    PaddingIsBlank(d);
    assert line == line[..k] + ("=" + line[k + 1..]);
  }

  /** The text made of `lines` with a newline between every two. */
  function Joined(lines: seq<string>): string {
    if lines == [] then "" else if |lines| == 1 then lines[0] else lines[0] + ("\n" + Joined(lines[1..]))
  }

  lemma {:induction false} LineEndIs(s: string)
    ensures '\n' !in s[..LineEnd(s)] && (LineEnd(s) < |s| ==> s[LineEnd(s)] == '\n')
  {
    if s != "" && s[0] != '\n' {
      LineEndIs(s[1..]);
      assert s[..LineEnd(s)] == [s[0]] + s[1..][..LineEnd(s[1..])];
    }
  }

  /** The lines of a file have no newlines in them, and joined by newlines they are the file. */
  lemma {:induction false} LinesJoin(s: string)
    ensures Lines(s) != [] && Joined(Lines(s)) == s && forall i :: 0 <= i < |Lines(s)| ==> '\n' !in Lines(s)[i]
    decreases |s|
  {
    hide LineEnd;
    var k := LineEnd(s);
    LineEndIs(s);
    assert s[..|s|] == s;
    if k < |s| {
      LinesJoin(s[k + 1..]);
      assert s == s[..k] + ("\n" + s[k + 1..]);
      assert Lines(s)[1..] == Lines(s[k + 1..]);
    }
  }
}
