/**
 The Markdown code span printer of `cmd/sumpter/commands/inspect_markdown.go` and the rule a
 Markdown reader applies to its output, section 6.1 of CommonMark 0.31.2. Strings are valid
 sequences of Unicode characters.
 */
module CodeSpan {
  import opened Wrappers

  const TICK := '`'

  // ---- mdVisible

  predicate NeedsVisible(c: char) {
    var r := c as int;
    || r < 0x20 || r == 0x7f || 0x80 <= r <= 0x9f
    || r == 0x061c || r == 0x200e || r == 0x200f || r == 0x2028 || r == 0x2029
    || 0x202a <= r <= 0x202e || 0x2066 <= r <= 0x2069 || r == 0xfeff
  }

  function Digit(n: nat): char
    requires n < 16
  {
    if n < 10 then ('0' as int + n) as char else ('A' as int + n - 10) as char
  }

  function Escaped(c: char): string {
    var r := c as int;
    if c == '\n' then "\\n"
    else if c == '\r' then "\\r"
    else if c == '\t' then "\\t"
    else if r < 0x20 || r == 0x7f then ['\\', 'x', Digit(r / 16), Digit(r % 16)]
    else if NeedsVisible(c) then ['\\', 'u', Digit(r / 4096), Digit(r / 256 % 16), Digit(r / 16 % 16), Digit(r % 16)]
    else [c]
  }

  function Visible(s: string): string {
    if s == "" then "" else Visible(s[..|s| - 1]) + Escaped(s[|s| - 1])
  }

  predicate AllVisible(s: string) { forall i :: 0 <= i < |s| ==> !NeedsVisible(s[i]) }

  method MdVisible(s: string) returns (r: string)
    ensures r == Visible(s) && AllVisible(r)
  {
    VisibleIsVisible(s);
    var dirty := exists i :: 0 <= i < |s| && NeedsVisible(s[i]);
    if !dirty {
      VisibleStays(s);
      return s;
    }
    r := "";
    for i := 0 to |s|
      invariant r == Visible(s[..i])
    {
      assert s[..i + 1][..i] == s[..i];
      r := r + Escaped(s[i]);
    }
    assert s[..|s|] == s;
  }

  lemma EscapedIsVisible(c: char)
    ensures Escaped(c) != "" && AllVisible(Escaped(c))
  {
  }

  lemma {:induction false} VisibleIsVisible(s: string)
    ensures AllVisible(Visible(s)) && (s != "" ==> Visible(s) != "")
    decreases |s|
  {
    if s != "" {
      VisibleIsVisible(s[..|s| - 1]);
      EscapedIsVisible(s[|s| - 1]);
    }
  }

  /** A string with nothing to escape stays as it is. */
  lemma {:induction false} VisibleStays(s: string)
    requires AllVisible(s)
    ensures Visible(s) == s
    decreases |s|
  {
    if s != "" {
      VisibleStays(s[..|s| - 1]);
      assert s == s[..|s| - 1] + [s[|s| - 1]];
    }
  }

  // ---- reading the visible form

  function DigitValue(c: char): int { if c <= '9' then c as int - '0' as int else c as int - 'A' as int + 10 }

  function Number(digits: string): int {
    if digits == "" then 0 else Number(digits[..|digits| - 1]) * 16 + DigitValue(digits[|digits| - 1])
  }

  /** How many characters the first character of a visible form takes up. */
  function Width(s: string): (n: nat)
    requires s != ""
    ensures 0 < n <= |s|
  {
    if s[0] != '\\' || |s| < 2 then 1
    else if s[1] in "nrt" then 2
    else if s[1] == 'x' && |s| >= 4 then 4
    else if s[1] == 'u' && |s| >= 6 then 6
    else 1
  }

  /** The code point that a character of a visible form stands for. */
  function Code(e: string): int
    requires e != ""
  {
    if |e| == 2 then (if e[1] == 'n' then 10 else if e[1] == 'r' then 13 else 9)
    else if |e| > 2 then Number(e[2..])
    else e[0] as int
  }

  function Read(s: string): seq<int>
    decreases |s|
  {
    if s == "" then [] else [Code(s[..Width(s)])] + Read(s[Width(s)..])
  }

  function Codes(s: string): (r: seq<int>)
    ensures |r| == |s| && forall i :: 0 <= i < |s| ==> r[i] == s[i] as int
  {
    seq(|s|, i requires 0 <= i < |s| => s[i] as int)
  }

  lemma TwoDigits(r: nat)
    requires r < 256
    ensures Number([Digit(r / 16), Digit(r % 16)]) == r
  {
    var d := [Digit(r / 16), Digit(r % 16)];
    assert d[..1] == [Digit(r / 16)] && d[..1][..0] == "";
    assert DigitValue(Digit(r / 16)) == r / 16 && DigitValue(Digit(r % 16)) == r % 16;
    assert Number(d[..1]) == r / 16;
  }

  lemma FourDigits(r: nat)
    requires r < 65536
    ensures Number([Digit(r / 4096), Digit(r / 256 % 16), Digit(r / 16 % 16), Digit(r % 16)]) == r
  {
    var d := [Digit(r / 4096), Digit(r / 256 % 16), Digit(r / 16 % 16), Digit(r % 16)];
    assert d[..3][..2] == [Digit(r / 256 / 16), Digit(r / 256 % 16)];
    TwoDigits(r / 256);
    assert Number(d[..3]) == r / 256 * 16 + r / 16 % 16;
  }

  /** An escape determines its character, whatever follows it. */
  lemma EscapeReads(c: char, rest: string)
    requires c != '\\'
    ensures Width(Escaped(c) + rest) == |Escaped(c)| && Code(Escaped(c)) == c as int
  {
    var r := c as int;
    var e := Escaped(c);
    if c in "\n\r\t" || !NeedsVisible(c) {
    } else if r < 0x20 || r == 0x7f {
      TwoDigits(r);
      assert e[2..] == [Digit(r / 16), Digit(r % 16)];
    } else {
      FourDigits(r);
      assert e[2..] == [Digit(r / 4096), Digit(r / 256 % 16), Digit(r / 16 % 16), Digit(r % 16)];
    }
  }

  lemma LastStep(a: string, b: string) returns (e: string)
    requires b != ""
    ensures Visible(b) == Visible(b[..|b| - 1]) + e && Visible(a + b) == Visible(a + b[..|b| - 1]) + e
  {
    e := Escaped(b[|b| - 1]);
    assert (a + b)[..|a + b| - 1] == a + b[..|b| - 1];
  }

  lemma Assoc(a: string, b: string, c: string)
    ensures a + b + c == a + (b + c)
  {
  }

  lemma {:induction false} VisibleAppends(a: string, b: string)
    ensures Visible(a + b) == Visible(a) + Visible(b)
    decreases |b|
  {
    if b == "" {
      assert a + b == a;
    } else {
      var k := |b| - 1;
      VisibleAppends(a, b[..k]);
      var e := LastStep(a, b);
      Assoc(Visible(a), Visible(b[..k]), e);
    }
  }

  lemma VisibleFromFront(c: char, s: string)
    ensures Visible([c] + s) == Escaped(c) + Visible(s)
  {
    VisibleAppends([c], s);
    assert [c][..0] == "";
    assert "" + Escaped(c) == Escaped(c);
  }

  /** The visible form of a string without backslashes reads back as that string. */
  lemma {:induction false} VisibleReadsBack(s: string)
    requires '\\' !in s
    ensures Read(Visible(s)) == Codes(s)
    decreases |s|
  {
    if s == "" {
    } else {
      var c, t := s[0], s[1..];
      assert s == [c] + t;
      VisibleReadsBack(t);
      VisibleFromFront(c, t);
      EscapedIsVisible(c);
      EscapeReads(c, Visible(t));
      assert (Escaped(c) + Visible(t))[..|Escaped(c)|] == Escaped(c);
      assert (Escaped(c) + Visible(t))[|Escaped(c)|..] == Visible(t);
    }
  }

  /** A backslash is shown as it is, so text that looks like an escape cannot be told from one. */
  lemma BackslashIsAmbiguous()
    ensures Visible("\\n") == Visible("\n")
  {
    VisibleStays("\\n");
    assert "\n"[..0] == "";
  }

  // ---- the reader's rule

  predicate Ticks(s: string) { forall i :: 0 <= i < |s| ==> s[i] == TICK }

  /** The length of the backtick string at the front. */
  function Run(s: string): (n: nat)
    ensures n <= |s| && Ticks(s[..n]) && (n < |s| ==> s[n] != TICK)
  {
    if s == "" || s[0] != TICK then 0 else 1 + Run(s[1..])
  }

  /** Where the first backtick string of exactly `n` begins. */
  function FindClose(s: string, n: nat): (k: Option<nat>)
    ensures k.Some? ==> k.value + n <= |s|
    decreases |s|
  {
    if s == "" then None
    else if s[0] != TICK then Shift(FindClose(s[1..], n), 1)
    else if Run(s) == n then Some(0)
    else Shift(FindClose(s[Run(s)..], n), Run(s))
  }

  function Shift(k: Option<nat>, more: nat): Option<nat> { if k.Some? then Some(k.value + more) else None }

  /** Line endings are read as spaces. */
  function Unbroken(s: string): string {
    if s == "" then ""
    else if |s| >= 2 && s[0] == '\r' && s[1] == '\n' then " " + Unbroken(s[2..])
    else if s[0] == '\n' || s[0] == '\r' then " " + Unbroken(s[1..])
    else [s[0]] + Unbroken(s[1..])
  }

  predicate Blank(s: string) { forall i :: 0 <= i < |s| ==> s[i] == ' ' }

  /** One space comes off each side, unless there is nothing but spaces. */
  function Stripped(s: string): string {
    if |s| >= 2 && s[0] == ' ' && s[|s| - 1] == ' ' && !Blank(s) then s[1..|s| - 1] else s
  }

  datatype Span = NoSpan | Span(content: string, rest: string)

  /** The code span at the front of a text. */
  function ParseSpan(s: string): Span {
    var n := Run(s);
    var k := FindClose(s[n..], n);
    if n == 0 || k.None? then NoSpan
    else Span(Stripped(Unbroken(s[n..n + k.value])), s[n + k.value + n..])
  }

  // ---- mdCode

  function Fence(n: nat): (f: string)
    ensures |f| == n && Ticks(f)
  {
    seq(n, _ => TICK)
  }

  /** `n` backticks from position `i` on. */
  predicate TicksAt(s: string, i: nat, n: nat) { i + n <= |s| && forall j :: i <= j < i + n ==> s[j] == TICK }

  /** No `n` backticks stand side by side. */
  predicate NoRun(s: string, n: nat) { forall i: nat :: i <= |s| ==> !TicksAt(s, i, n) }

  predicate HasRun(s: string, n: nat) { exists i: nat :: i <= |s| && TicksAt(s, i, n) }

  /** The longest run of backticks, as mdCode counts it. */
  method LongestRun(s: string) returns (longest: nat)
    ensures NoRun(s, longest + 1) && HasRun(s, longest)
  {
    longest := 0;
    var run := 0;
    assert TicksAt(s, 0, 0);
    for i := 0 to |s|
      invariant run <= i && TicksAt(s, i - run, run) && (run < i ==> s[i - run - 1] != TICK) && run <= longest
      invariant HasRun(s, longest)
      invariant forall a: nat, n: nat :: a + n <= i && TicksAt(s, a, n) ==> n <= longest
    {
      ghost var was := run;
      if s[i] == TICK {
        run := run + 1;
        if run > longest {
          longest := run;
          assert TicksAt(s, i + 1 - run, longest);
        }
      } else {
        run := 0;
      }
      forall a: nat, n: nat | a + n <= i + 1 && TicksAt(s, a, n)
        ensures n <= longest
      {
        if a + n == i + 1 && n > 0 { WindowBound(s, a, n, was); }
      }
    }
  }

  /** A window of backticks that ends at `i` is no longer than the run counted up to there, and one more. */
  lemma WindowBound(s: string, a: nat, n: nat, run: nat)
    requires n > 0 && TicksAt(s, a, n) && run < a + n && (run < a + n - 1 ==> s[a + n - 1 - run - 1] != TICK)
    ensures s[a + n - 1] == TICK && n - 1 <= run
  {
  }

  predicate NeedsPad(s: string) {
    s != "" && (s[0] == TICK || s[|s| - 1] == TICK || (|s| >= 2 && s[0] == ' ' && s[|s| - 1] == ' ' && !Blank(s)))
  }

  method MdCode(text: string) returns (r: string)
    ensures text != "" ==> ParseSpan(r) == Span(Visible(text), "")
    ensures text == "" ==> ParseSpan(r) == NoSpan
  {
    var s := MdVisible(text);
    VisibleIsVisible(text);
    var longest := LongestRun(s);
    var fence := Fence(longest + 1);
    r := if NeedsPad(s) then fence + " " + s + " " + fence else fence + s + fence;
    if text != "" {
      if NeedsPad(s) { PaddedParses(s, longest + 1); } else { BareParses(s, longest + 1); }
    } else {
      EmptyIsNoSpan(longest + 1);
      assert r == Fence(longest + 1) + Fence(longest + 1);
    }
  }

  // ---- why the reader finds the same content

  lemma {:induction false} RunOfTicks(s: string, tail: string)
    requires Ticks(s) && (tail == "" || tail[0] != TICK)
    ensures Run(s + tail) == |s|
    decreases |s|
  {
    if s == "" {
      assert s + tail == tail;
    } else {
      RunOfTicks(s[1..], tail);
      assert (s + tail)[1..] == s[1..] + tail;
    }
  }

  /** A run inside a text that does not end in a backtick is the same with more text after it. */
  lemma {:induction false} RunInside(s: string, tail: string)
    requires s != "" && s[|s| - 1] != TICK
    ensures Run(s + tail) == Run(s) < |s|
    decreases |s|
  {
    if s[0] == TICK {
      RunInside(s[1..], tail);
      assert (s + tail)[1..] == s[1..] + tail;
    }
  }

  lemma SameTicks(s: string, k: nat, i: nat, n: nat)
    requires k <= |s|
    ensures TicksAt(s[k..], i, n) <==> TicksAt(s, k + i, n)
  {
    if k + i + n <= |s| {
      assert forall j :: k + i <= j < k + i + n ==> s[j] == s[k..][j - k];
      assert forall j :: i <= j < i + n ==> s[k..][j] == s[k + j];
    }
  }

  lemma NoRunSuffix(s: string, n: nat, k: nat)
    requires NoRun(s, n) && k <= |s|
    ensures NoRun(s[k..], n)
  {
    forall i: nat | i <= |s[k..]|
      ensures !TicksAt(s[k..], i, n)
    {
      SameTicks(s, k, i, n);
    }
  }

  lemma TicksInRun(s: string, k: nat)
    requires k <= Run(s)
    ensures TicksAt(s, 0, k)
  {
    assert forall j :: 0 <= j < k ==> s[j] == s[..Run(s)][j];
  }

  lemma RunIsShort(s: string, n: nat)
    requires NoRun(s, n)
    ensures Run(s) < n
  {
    TicksInRun(s, if n < Run(s) then n else Run(s));
  }

  /** In a text with only shorter runs the closing fence is found at its end. */
  lemma {:induction false} CloseIsFound(c: string, n: nat)
    requires n > 0 && NoRun(c, n) && (c != "" ==> c[|c| - 1] != TICK)
    ensures FindClose(c + Fence(n), n) == Some(|c|)
    decreases |c|
  {
    var s := c + Fence(n);
    if c == "" {
      assert s == Fence(n);
      RunOfTicks(Fence(n), "");
      assert Fence(n) + "" == Fence(n);
    } else if c[0] != TICK {
      NoRunSuffix(c, n, 1);
      CloseIsFound(c[1..], n);
      assert s[1..] == c[1..] + Fence(n);
    } else {
      RunInside(c, Fence(n));
      RunIsShort(c, n);
      NoRunSuffix(c, n, Run(c));
      CloseIsFound(c[Run(c)..], n);
      assert s[Run(c)..] == c[Run(c)..] + Fence(n);
    }
  }

  lemma {:induction false} UnbrokenStays(s: string)
    requires AllVisible(s)
    ensures Unbroken(s) == s
    decreases |s|
  {
    if s != "" {
      UnbrokenStays(s[1..]);
      assert s == [s[0]] + s[1..];
    }
  }

  /** A text between two fences longer than its runs, with no backtick at its edges, is read whole. */
  lemma FencedParses(c: string, n: nat)
    requires n > 0 && c != "" && NoRun(c, n) && c[0] != TICK && c[|c| - 1] != TICK && AllVisible(c)
    ensures ParseSpan(Fence(n) + c + Fence(n)) == Span(Stripped(c), "")
  {
    var s := Fence(n) + c + Fence(n);
    assert s == Fence(n) + (c + Fence(n));
    RunOfTicks(Fence(n), c + Fence(n));
    CloseIsFound(c, n);
    assert s[n..] == c + Fence(n) && s[n..n + |c|] == c && s[n + |c| + n..] == "";
    UnbrokenStays(c);
  }

  lemma PaddedTicks(s: string, i: nat, n: nat)
    requires n > 0
    ensures TicksAt(" " + s + " ", i, n) <==> 0 < i && TicksAt(s, i - 1, n)
  {
    var c := " " + s + " ";
    assert c[0] == ' ' && c[|c| - 1] == ' ';
    assert forall j :: 0 <= j < |s| ==> s[j] == c[j + 1];
    if 0 < i && i + n < |c| {
      assert forall j :: i <= j < i + n ==> c[j] == s[j - 1];
    }
  }

  lemma PaddedHasNoRun(s: string, n: nat)
    requires n > 0 && NoRun(s, n)
    ensures NoRun(" " + s + " ", n)
  {
    var c := " " + s + " ";
    forall i: nat | i <= |c|
      ensures !TicksAt(c, i, n)
    {
      PaddedTicks(s, i, n);
    }
  }

  lemma PaddedStrips(s: string)
    requires NeedsPad(s)
    ensures Stripped(" " + s + " ") == s
  {
    var c := " " + s + " ";
    assert !Blank(c) by {
      if s[0] == TICK { assert c[1] == TICK; }
      else if s[|s| - 1] == TICK { assert c[|s|] == TICK; }
      else { var i :| 0 <= i < |s| && s[i] != ' '; assert c[i + 1] == s[i]; }
    }
    assert c[1..|c| - 1] == s;
  }

  lemma Regroup(f: string, s: string)
    ensures f + " " + s + " " + f == f + (" " + s + " ") + f
  {
  }

  lemma PaddedParses(s: string, n: nat)
    requires AllVisible(s) && n > 0 && NoRun(s, n) && NeedsPad(s)
    ensures ParseSpan(Fence(n) + " " + s + " " + Fence(n)) == Span(s, "")
  {
    PaddedHasNoRun(s, n);
    FencedParses(" " + s + " ", n);
    PaddedStrips(s);
    Regroup(Fence(n), s);
  }

  lemma BareParses(s: string, n: nat)
    requires s != "" && AllVisible(s) && n > 0 && NoRun(s, n) && !NeedsPad(s)
    ensures ParseSpan(Fence(n) + s + Fence(n)) == Span(s, "")
  {
    FencedParses(s, n);
  }

  lemma EmptyIsNoSpan(n: nat)
    requires n > 0
    ensures ParseSpan(Fence(n) + Fence(n)) == NoSpan
  {
    var s := Fence(n) + Fence(n);
    assert Ticks(s);
    RunOfTicks(s, "");
    assert s + "" == s;
  }
}
