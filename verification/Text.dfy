/** White space as Go's strings.TrimSpace takes it off, which several of the modelled checks rely on. */
module Text {

  predicate White(c: char) {
    c in {' ', '\t', '\n', '\r', '\U{000B}', '\U{000C}', '\U{0085}', '\U{00A0}', '\U{1680}', '\U{2028}', '\U{2029}', '\U{202F}', '\U{205F}', '\U{3000}'}
    || '\U{2000}' <= c <= '\U{200A}'
  }

  predicate Blank(s: string) { forall i :: 0 <= i < |s| ==> White(s[i]) }

  function TrimLeft(s: string): string { if s != "" && White(s[0]) then TrimLeft(s[1..]) else s }

  function TrimRight(s: string): string { if s != "" && White(s[|s| - 1]) then TrimRight(s[..|s| - 1]) else s }

  function Trim(s: string): string { TrimRight(TrimLeft(s)) }

  predicate Trimmed(s: string) { s == "" || (!White(s[0]) && !White(s[|s| - 1])) }

  lemma {:induction false} TrimLeftWorks(s: string)
    ensures TrimLeft(s) == "" || !White(TrimLeft(s)[0])
    ensures |TrimLeft(s)| <= |s| && TrimLeft(s) == s[|s| - |TrimLeft(s)|..]
    decreases |s|
  {
    if s != "" && White(s[0]) { TrimLeftWorks(s[1..]); }
  }

  lemma {:induction false} TrimRightWorks(s: string)
    ensures TrimRight(s) == "" || !White(TrimRight(s)[|TrimRight(s)| - 1])
    ensures TrimRight(s) <= s
    decreases |s|
  {
    if s != "" && White(s[|s| - 1]) { TrimRightWorks(s[..|s| - 1]); }
  }

  lemma TrimTrims(s: string)
    ensures Trimmed(Trim(s))
  {
    TrimLeftWorks(s);
    TrimRightWorks(TrimLeft(s));
  }

  lemma {:induction false} TrimLeftTakesWhite(s: string) returns (a: string)
    ensures s == a + TrimLeft(s) && Blank(a)
    decreases |s|
  {
    if s != "" && White(s[0]) {
      a := TrimLeftTakesWhite(s[1..]);
      a := [s[0]] + a;
    } else {
      a := "";
    }
  }

  lemma {:induction false} TrimRightTakesWhite(s: string) returns (b: string)
    ensures s == TrimRight(s) + b && Blank(b)
    decreases |s|
  {
    if s != "" && White(s[|s| - 1]) {
      b := TrimRightTakesWhite(s[..|s| - 1]);
      b := b + [s[|s| - 1]];
    } else {
      b := "";
    }
  }

  /** Trimming takes white space off both ends and nothing else. */
  lemma TrimTakesWhite(s: string)
    ensures exists a, b :: s == a + Trim(s) + b && Blank(a) && Blank(b)
  {
    var a := TrimLeftTakesWhite(s);
    var b := TrimRightTakesWhite(TrimLeft(s));
    assert s == a + Trim(s) + b;
  }

  lemma TrimmedStays(s: string)
    requires Trimmed(s)
    ensures Trim(s) == s
  {
  }
}
