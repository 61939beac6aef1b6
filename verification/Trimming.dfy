/** Removing characters from both ends of a string, for any class of characters to remove. */
module Trimming {
  import opened Text

  predicate Blanks(blank: char -> bool, s: string) { forall i :: 0 <= i < |s| ==> blank(s[i]) }

  predicate NoOuterBlanks(blank: char -> bool, s: string) { s != "" ==> !blank(s[0]) && !blank(s[|s| - 1]) }

  /** Index of the first character that is not blank, or the length. */
  function FirstNotBlank(blank: char -> bool, s: string): (k: nat)
    ensures k <= |s| && (k < |s| ==> !blank(s[k]))
  {
    if s == "" || !blank(s[0]) then 0 else 1 + FirstNotBlank(blank, s[1..])
  }

  /** One past the last character that is not blank, or zero. */
  function PastLastNotBlank(blank: char -> bool, s: string): (k: nat)
    ensures k <= |s| && (k > 0 ==> !blank(s[k - 1]))
  {
    if s == "" then 0 else if !blank(s[|s| - 1]) then |s| else PastLastNotBlank(blank, s[..|s| - 1])
  }

  function Trim(blank: char -> bool, s: string): (t: string)
    ensures NoOuterBlanks(blank, t)
  {
    var start, end := FirstNotBlank(blank, s), PastLastNotBlank(blank, s);
    FirstBeforeLast(blank, s);
    if start == |s| then "" else s[start..end]
  }

  lemma {:induction false} FirstBeforeLast(blank: char -> bool, s: string)
    ensures FirstNotBlank(blank, s) < |s| ==> FirstNotBlank(blank, s) < PastLastNotBlank(blank, s)
  {
    if s != "" && blank(s[|s| - 1]) && FirstNotBlank(blank, s) < |s| {
      FirstOfPrefix(blank, s);
      FirstBeforeLast(blank, s[..|s| - 1]);
    }
  }

  lemma {:induction false} FirstOfPrefix(blank: char -> bool, s: string)
    requires s != "" && blank(s[|s| - 1]) && FirstNotBlank(blank, s) < |s|
    ensures FirstNotBlank(blank, s[..|s| - 1]) == FirstNotBlank(blank, s) < |s| - 1
  {
    if blank(s[0]) {
      FirstOfPrefix(blank, s[1..]);
      assert s[..|s| - 1][1..] == s[1..][..|s| - 2];
    }
  }

  lemma {:induction false} FirstPadded(blank: char -> bool, a: string, s: string)
    requires Blanks(blank, a)
    ensures FirstNotBlank(blank, a + s) == |a| + FirstNotBlank(blank, s)
  {
    if a == "" {
      assert a + s == s;
    } else {
      FirstPadded(blank, a[1..], s);
      assert (a + s)[1..] == a[1..] + s;
    }
  }

  /** Blanks at the end do not move the first character that is not blank, unless there is none. */
  lemma {:induction false} FirstBefore(blank: char -> bool, s: string, b: string)
    requires Blanks(blank, b)
    ensures FirstNotBlank(blank, s + b) == if FirstNotBlank(blank, s) == |s| then |s| + |b| else FirstNotBlank(blank, s)
  {
    if s == "" {
      assert s + b == b && b + "" == b;
      FirstPadded(blank, b, "");
    } else if blank(s[0]) {
      FirstBefore(blank, s[1..], b);
      assert (s + b)[1..] == s[1..] + b;
    }
  }

  lemma {:induction false} LastPadded(blank: char -> bool, s: string, b: string)
    requires Blanks(blank, b)
    ensures PastLastNotBlank(blank, s + b) == PastLastNotBlank(blank, s)
  {
    if b == "" {
      assert s + b == s;
    } else {
      LastPadded(blank, s, b[..|b| - 1]);
      assert (s + b)[..|s + b| - 1] == s + b[..|b| - 1] && (s + b)[|s + b| - 1] == b[|b| - 1];
    }
  }

  /** A character that is not blank ends the search before it reaches what comes earlier. */
  lemma {:induction false} LastAfter(blank: char -> bool, a: string, s: string)
    requires FirstNotBlank(blank, s) < |s|
    ensures PastLastNotBlank(blank, a + s) == |a| + PastLastNotBlank(blank, s)
  {
    assert (a + s)[|a + s| - 1] == s[|s| - 1];
    if blank(s[|s| - 1]) {
      FirstOfPrefix(blank, s);
      LastAfter(blank, a, s[..|s| - 1]);
      assert (a + s)[..|a + s| - 1] == a + s[..|s| - 1];
    }
  }

  lemma TrimPadded(blank: char -> bool, a: string, s: string, b: string)
    requires Blanks(blank, a) && Blanks(blank, b)
    ensures Trim(blank, a + (s + b)) == Trim(blank, s)
  {
    hide FirstNotBlank, PastLastNotBlank;
    FirstPadded(blank, a, s + b);
    FirstBefore(blank, s, b);
    var f, p := FirstNotBlank(blank, s), PastLastNotBlank(blank, s);
    FirstBeforeLast(blank, s);
    if f < |s| {
      LastAfter(blank, a, s + b);
      LastPadded(blank, s, b);
      assert (a + (s + b))[|a| + f..|a| + p] == s[f..p];
    }
  }

  lemma TrimTrimmed(blank: char -> bool, s: string)
    ensures Trim(blank, s) == s <==> NoOuterBlanks(blank, s)
  {
    if NoOuterBlanks(blank, s) && s != "" {
      assert FirstNotBlank(blank, s) == 0 && PastLastNotBlank(blank, s) == |s|;
    }
  }

  lemma {:induction false} BlankBefore(blank: char -> bool, s: string)
    ensures Blanks(blank, s[..FirstNotBlank(blank, s)])
  {
    if s != "" && blank(s[0]) {
      BlankBefore(blank, s[1..]);
      assert s[..FirstNotBlank(blank, s)] == [s[0]] + s[1..][..FirstNotBlank(blank, s[1..])];
    }
  }

  lemma {:induction false} BlankAfter(blank: char -> bool, s: string)
    ensures Blanks(blank, s[PastLastNotBlank(blank, s)..])
  {
    if s != "" && blank(s[|s| - 1]) {
      var pre := s[..|s| - 1];
      BlankAfter(blank, pre);
      assert s[PastLastNotBlank(blank, s)..] == pre[PastLastNotBlank(blank, pre)..] + [s[|s| - 1]];
    }
  }

  /** `s` is `t` between blanks. */
  ghost predicate Pads(blank: char -> bool, t: string, s: string) {
    exists a, b :: Blanks(blank, a) && Blanks(blank, b) && s == a + (t + b)
  }

  /** Trimming gives the one string without outer blanks that blanks around it make into `s`. */
  lemma TrimIs(blank: char -> bool, s: string, t: string)
    ensures Trim(blank, s) == t <==> NoOuterBlanks(blank, t) && Pads(blank, t, s)
  {
    hide FirstNotBlank, PastLastNotBlank;
    var f, p := FirstNotBlank(blank, s), PastLastNotBlank(blank, s);
    BlankBefore(blank, s);
    BlankAfter(blank, s);
    FirstBeforeLast(blank, s);
    if f == |s| {
      assert s[..f] == s && s == s + ("" + "");
      assert Blanks(blank, s) && Blanks(blank, "");
    } else {
      assert s == s[..f] + (s[f..p] + s[p..]);
    }
    assert Pads(blank, Trim(blank, s), s);
    if NoOuterBlanks(blank, t) && Pads(blank, t, s) {
      var a, b :| Blanks(blank, a) && Blanks(blank, b) && s == a + (t + b);
      TrimPadded(blank, a, t, b);
      TrimTrimmed(blank, t);
    }
  }
}
