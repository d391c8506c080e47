/**
 The namespace context table of `internal/index/namespace_context.go` and its two passes in
 `internal/index/builder.go`: the first pass collects the contexts that the header lists,
 the second gives every record its reference into that header.
 */
module NamespaceTable {
  import opened IndexTypes
  import opened Text

  // ---- normal form of declarations

  /** Byte order of strings, strictly. */
  predicate Before(a: string, b: string) {
    b != "" && (a == "" || a[0] < b[0] || (a[0] == b[0] && Before(a[1..], b[1..])))
  }

  predicate Ordered(ds: seq<Decl>) { forall i, j :: 0 <= i < j < |ds| ==> Before(ds[i].prefix, ds[j].prefix) }

  /** One declaration put in its place; a later one for the same prefix replaces it. */
  function Put(ds: seq<Decl>, d: Decl): seq<Decl> {
    if ds == [] then [d]
    else if ds[0].prefix == d.prefix then [d] + ds[1..]
    else if Before(d.prefix, ds[0].prefix) then [d] + ds
    else [ds[0]] + Put(ds[1..], d)
  }

  predicate Persisted(d: Decl) { d.prefix != "xml" && d.prefix != "xmlns" && d.uri != "" }

  function Cleaned(d: Decl): Decl { Decl(Trim(d.prefix), Trim(d.uri)) }

  /** NormalizeNamespaceDeclarations. */
  function Normal(ds: seq<Decl>): seq<Decl> {
    if ds == [] then []
    else
      var m, d := Normal(ds[..|ds| - 1]), Cleaned(ds[|ds| - 1]);
      if Persisted(d) then Put(m, d) else m
  }

  lemma {:induction false} BeforeIsStrict(a: string, b: string)
    ensures !(Before(a, b) && Before(b, a)) && !Before(a, a)
    ensures a == b || Before(a, b) || Before(b, a)
    decreases |a|
  {
    if a != "" {
      BeforeIsStrict(a[1..], if b == "" then "" else b[1..]);
      if b != "" {
        assert a == [a[0]] + a[1..] && b == [b[0]] + b[1..];
      }
    }
  }

  lemma {:induction false} BeforeChains(a: string, b: string, c: string)
    requires Before(a, b) && Before(b, c)
    ensures Before(a, c)
    decreases |a|
  {
    if a != "" && a[0] == b[0] && b[0] == c[0] {
      BeforeChains(a[1..], b[1..], c[1..]);
    }
  }

  /** What Put leaves: the new declaration, and the others of other prefixes. */
  lemma {:induction false} PutHolds(ds: seq<Decl>, d: Decl)
    requires Ordered(ds)
    ensures Ordered(Put(ds, d))
    ensures forall e :: e in Put(ds, d) <==> e == d || (e in ds && e.prefix != d.prefix)
    decreases |ds|
  {
    if ds == [] {
    } else {
      var tail := ds[1..];
      assert ds == [ds[0]] + tail;
      assert forall e :: e in tail ==> Before(ds[0].prefix, e.prefix);
      BeforeIsStrict(ds[0].prefix, d.prefix);
      BeforeIsStrict(ds[0].prefix, ds[0].prefix);
      if ds[0].prefix == d.prefix {
        assert forall e :: e in tail ==> e.prefix != d.prefix;
      } else if Before(d.prefix, ds[0].prefix) {
        PutFirst(ds, d);
      } else {
        PutHolds(tail, d);
        PutLater(ds[0], Put(tail, d));
      }
    }
  }

  lemma PutFirst(ds: seq<Decl>, d: Decl)
    requires ds != [] && Ordered(ds) && Before(d.prefix, ds[0].prefix)
    ensures Ordered([d] + ds) && forall e :: e in ds ==> e.prefix != d.prefix
  {
    forall i | 0 <= i < |ds|
      ensures Before(d.prefix, ds[i].prefix)
    {
      if i > 0 { BeforeChains(d.prefix, ds[0].prefix, ds[i].prefix); }
    }
    forall e | e in ds
      ensures e.prefix != d.prefix
    {
      BeforeIsStrict(d.prefix, e.prefix);
    }
  }

  lemma PutLater(first: Decl, ds: seq<Decl>)
    requires Ordered(ds) && forall e :: e in ds ==> Before(first.prefix, e.prefix)
    ensures Ordered([first] + ds)
  {
  }

  /** The declaration for a prefix that counts: the last one that is persisted. */
  function LastFor(ds: seq<Decl>, prefix: string): string {
    if ds == [] then ""
    else
      var d := Cleaned(ds[|ds| - 1]);
      if Persisted(d) && d.prefix == prefix then d.uri else LastFor(ds[..|ds| - 1], prefix)
  }

  predicate InNormalForm(ds: seq<Decl>) {
    Ordered(ds) && forall i :: 0 <= i < |ds| ==> Persisted(ds[i]) && Trimmed(ds[i].prefix) && Trimmed(ds[i].uri)
  }

  /** The normal form is sorted, and holds for each prefix exactly its last persisted declaration. */
  lemma {:induction false} NormalHolds(ds: seq<Decl>)
    ensures InNormalForm(Normal(ds))
    ensures forall p, u :: Decl(p, u) in Normal(ds) <==> u != "" && LastFor(ds, p) == u
    decreases |ds|
  {
    if ds == [] {
    } else {
      var m, d := Normal(ds[..|ds| - 1]), Cleaned(ds[|ds| - 1]);
      NormalHolds(ds[..|ds| - 1]);
      TrimTrims(ds[|ds| - 1].prefix);
      TrimTrims(ds[|ds| - 1].uri);
      if Persisted(d) {
        PutHolds(m, d);
        var r := Put(m, d);
        forall i | 0 <= i < |r|
          ensures Persisted(r[i]) && Trimmed(r[i].prefix) && Trimmed(r[i].uri)
        {
          assert r[i] in r;
        }
      }
    }
  }

  /** Declaration `i` is the last one for its prefix that has a URI, once blanks are trimmed. */
  predicate LastOf(ds: seq<Decl>, i: nat, prefix: string, uri: string) {
    && i < |ds| && Trim(ds[i].prefix) == prefix && Trim(ds[i].uri) == uri
    && forall j :: i < j < |ds| && Trim(ds[j].prefix) == prefix ==> Trim(ds[j].uri) == ""
  }

  ghost predicate HasLast(ds: seq<Decl>, prefix: string, uri: string) { exists i :: LastOf(ds, i, prefix, uri) }

  predicate Reserved(prefix: string) { prefix == "xml" || prefix == "xmlns" }

  lemma LastHere(ds: seq<Decl>, prefix: string, uri: string)
    requires uri != "" && ds != [] && Trim(ds[|ds| - 1].prefix) == prefix && Trim(ds[|ds| - 1].uri) != ""
    ensures HasLast(ds, prefix, uri) <==> Trim(ds[|ds| - 1].uri) == uri
  {
    if Trim(ds[|ds| - 1].uri) == uri { assert LastOf(ds, |ds| - 1, prefix, uri); }
  }

  lemma LastEarlier(ds: seq<Decl>, prefix: string, uri: string)
    requires uri != "" && ds != [] && (Trim(ds[|ds| - 1].prefix) == prefix ==> Trim(ds[|ds| - 1].uri) == "")
    ensures HasLast(ds, prefix, uri) <==> HasLast(ds[..|ds| - 1], prefix, uri)
  {
    var k := |ds| - 1;
    forall i: nat ensures LastOf(ds[..k], i, prefix, uri) <==> LastOf(ds, i, prefix, uri) {
      assert forall j :: 0 <= j < k ==> ds[..k][j] == ds[j];
    }
  }

  lemma {:induction false} LastForIsLast(ds: seq<Decl>, prefix: string, uri: string)
    requires uri != ""
    ensures LastFor(ds, prefix) == uri <==> !Reserved(prefix) && HasLast(ds, prefix, uri)
    decreases |ds|
  {
    if ds == [] {
    } else {
      var k := |ds| - 1;
      LastForIsLast(ds[..k], prefix, uri);
      if Trim(ds[k].prefix) == prefix && Trim(ds[k].uri) != "" {
        LastHere(ds, prefix, uri);
      } else {
        LastEarlier(ds, prefix, uri);
      }
    }
  }

  /**
   What normalizing keeps: a prefix that is not reserved stands with the URI of its last
   declaration that has one, both without surrounding white space.
   */
  lemma NormalIsLast(ds: seq<Decl>, prefix: string, uri: string)
    ensures Decl(prefix, uri) in Normal(ds) <==>
      uri != "" && prefix != "xml" && prefix != "xmlns" && HasLast(ds, prefix, uri)
  {
    NormalHolds(ds);
    if uri != "" { LastForIsLast(ds, prefix, uri); }
  }

  lemma {:induction false} PutLast(ds: seq<Decl>, d: Decl)
    requires forall i :: 0 <= i < |ds| ==> Before(ds[i].prefix, d.prefix)
    ensures Put(ds, d) == ds + [d]
    decreases |ds|
  {
    if ds != [] {
      BeforeIsStrict(ds[0].prefix, d.prefix);
      PutLast(ds[1..], d);
      assert ds == [ds[0]] + ds[1..];
    }
  }

  lemma CleanedStays(d: Decl)
    requires Trimmed(d.prefix) && Trimmed(d.uri)
    ensures Cleaned(d) == d
  {
    TrimmedStays(d.prefix);
    TrimmedStays(d.uri);
  }

  lemma NormalFormPrefix(ds: seq<Decl>, m: nat)
    requires InNormalForm(ds) && m < |ds|
    ensures InNormalForm(ds[..m]) && forall i :: 0 <= i < m ==> Before(ds[..m][i].prefix, ds[m].prefix)
    ensures Persisted(ds[m]) && Trimmed(ds[m].prefix) && Trimmed(ds[m].uri)
  {
  }

  /** Normalizing again changes nothing. */
  lemma {:induction false} NormalFormStays(ds: seq<Decl>)
    requires InNormalForm(ds)
    ensures Normal(ds) == ds
    decreases |ds|
  {
    if ds != [] {
      var m := |ds| - 1;
      NormalFormPrefix(ds, m);
      NormalFormStays(ds[..m]);
      CleanedStays(ds[m]);
      PutLast(ds[..m], ds[m]);
      calc {
        Normal(ds);
        Put(ds[..m], ds[m]);
        ds[..m] + [ds[m]];
        ds;
      }
    }
  }

  // ---- the key

  /** namespaceContextKey. */
  function ContextKey(ds: seq<Decl>): string {
    if ds == [] then "" else ds[0].prefix + "=" + ds[0].uri + "\n" + ContextKey(ds[1..])
  }

  /** No prefix holds an equals sign and no URI a line feed. */
  predicate Plain(ds: seq<Decl>) { forall i :: 0 <= i < |ds| ==> '=' !in ds[i].prefix && '\n' !in ds[i].uri }

  /** Two strings with the same first separator at their first occurrence split alike. */
  lemma {:induction false} SplitAlike(a: string, x: string, b: string, y: string, c: char)
    requires a + [c] + x == b + [c] + y && c !in a && c !in b
    ensures a == b && x == y
    decreases |a|
  {
    var s, t := a + [c] + x, b + [c] + y;
    assert s[0] == if a == "" then c else a[0];
    assert t[0] == if b == "" then c else b[0];
    assert (a != "" ==> a[0] in a) && (b != "" ==> b[0] in b);
    if a == "" {
      assert s[1..] == x && t[1..] == y;
    } else {
      assert s[1..] == a[1..] + [c] + x && t[1..] == b[1..] + [c] + y;
      SplitAlike(a[1..], x, b[1..], y, c);
      assert a == [a[0]] + a[1..] && b == [b[0]] + b[1..];
    }
  }

  /** On plain declarations the key is injective. */
  lemma {:induction false} KeyIsInjective(a: seq<Decl>, b: seq<Decl>)
    requires Plain(a) && Plain(b) && ContextKey(a) == ContextKey(b)
    ensures a == b
    decreases |a|
  {
    if a == [] || b == [] {
      assert a == [] ==> |ContextKey(a)| == 0;
      assert a != [] ==> |ContextKey(a)| > 0;
      assert b != [] ==> |ContextKey(b)| > 0;
    } else {
      var ra, rb := ContextKey(a[1..]), ContextKey(b[1..]);
      assert ContextKey(a) == a[0].prefix + ['='] + (a[0].uri + ['\n'] + ra);
      assert ContextKey(b) == b[0].prefix + ['='] + (b[0].uri + ['\n'] + rb);
      SplitAlike(a[0].prefix, a[0].uri + ['\n'] + ra, b[0].prefix, b[0].uri + ['\n'] + rb, '=');
      SplitAlike(a[0].uri, ra, b[0].uri, rb, '\n');
      KeyIsInjective(a[1..], b[1..]);
      assert a == [a[0]] + a[1..] && b == [b[0]] + b[1..];
    }
  }

  lemma KeyOfOne(d: Decl)
    ensures ContextKey([d]) == d.prefix + "=" + d.uri + "\n"
  {
    assert [d][1..] == [] && d.prefix + "=" + d.uri + "\n" + "" == d.prefix + "=" + d.uri + "\n";
  }

  lemma KeyOfTwo(d: Decl, e: Decl)
    ensures ContextKey([d, e]) == d.prefix + "=" + d.uri + "\n" + (e.prefix + "=" + e.uri + "\n")
  {
    KeyOfOne(e);
    assert [d, e][1..] == [e];
  }

  /**
   Without that two different normal forms can share a key: any two declarations in normal
   form share theirs with one declaration whose URI holds a line feed and the text of the second.
   */
  lemma KeysCollide(d: Decl, e: Decl)
    requires InNormalForm([d, e])
    ensures var a := [Decl(d.prefix, d.uri + "\n" + e.prefix + "=" + e.uri)];
      InNormalForm(a) && a != [d, e] && !Plain(a) && ContextKey(a) == ContextKey([d, e])
  {
    var u := d.uri + "\n" + e.prefix + "=" + e.uri;
    assert [d, e][0] == d && [d, e][1] == e && d.uri != "" && e.uri != "";
    assert u[0] == d.uri[0] && u[|u| - 1] == e.uri[|e.uri| - 1] && u[|d.uri|] == '\n';
    KeyOfOne(Decl(d.prefix, u));
    KeyOfTwo(d, e);
    assert d.prefix + "=" + u + "\n" == d.prefix + "=" + d.uri + "\n" + (e.prefix + "=" + e.uri + "\n");
  }

  /** A prefix that holds an equals sign shares its key with the split at that sign. */
  lemma PrefixCollides(p: string, q: string, u: string)
    ensures ContextKey([Decl(p + "=" + q, u)]) == ContextKey([Decl(p, q + "=" + u)])
  {
    KeyOfOne(Decl(p + "=" + q, u));
    KeyOfOne(Decl(p, q + "=" + u));
    assert (p + "=" + q) + "=" + u + "\n" == p + "=" + (q + "=" + u) + "\n";
  }

  // ---- which declarations share a key

  /** No prefix holds an equals sign or a line feed, as no XML name does. */
  predicate Lawful(ds: seq<Decl>) { forall i :: 0 <= i < |ds| ==> '=' !in ds[i].prefix && '\n' !in ds[i].prefix }

  function IndexOf(s: string, c: char): (i: nat)
    requires c in s
    ensures i < |s| && s[i] == c && c !in s[..i]
  {
    if s[0] == c then 0 else
      assert s == [s[0]] + s[1..];
      var k := IndexOf(s[1..], c);
      assert s[..k + 1] == [s[0]] + s[1..][..k];
      k + 1
  }

  /** The text up to the first line feed. */
  function Line(s: string): string { if '\n' in s then s[..IndexOf(s, '\n')] else s }

  /** A declaration cut at every line feed whose next line reads as a declaration. */
  function CutOne(d: Decl): (r: seq<Decl>)
    ensures r != [] && r[0].prefix == d.prefix
    decreases |d.uri|
  {
    if '\n' !in d.uri then [d]
    else
      var i := IndexOf(d.uri, '\n');
      var rest := d.uri[i + 1..];
      if '=' in Line(rest) then
        var e := IndexOf(Line(rest), '=');
        [Decl(d.prefix, d.uri[..i])] + CutOne(Decl(rest[..e], rest[e + 1..]))
      else
        var more := CutOne(Decl(d.prefix, rest));
        [Decl(d.prefix, d.uri[..i + 1] + more[0].uri)] + more[1..]
  }

  function Cut(ds: seq<Decl>): seq<Decl> { if ds == [] then [] else CutOne(ds[0]) + Cut(ds[1..]) }

  lemma {:induction false} KeyOfBoth(a: seq<Decl>, b: seq<Decl>)
    ensures ContextKey(a + b) == ContextKey(a) + ContextKey(b)
    decreases |a|
  {
    if a == [] {
      assert a + b == b;
    } else {
      KeyOfBoth(a[1..], b);
      assert (a + b)[1..] == a[1..] + b;
    }
  }

  /** The first line feed of a line, a line feed and more is that one. */
  lemma FirstFeed(a: string, b: string)
    requires '\n' !in a
    ensures var u := a + "\n" + b; '\n' in u && IndexOf(u, '\n') == |a| && Line(u) == a && u[|a| + 1..] == b && u[..|a| + 1] == a + "\n"
  {
    var u := a + "\n" + b;
    assert u[|a|] == '\n';
    var i := IndexOf(u, '\n');
    assert forall k :: 0 <= k < |a| ==> u[k] == a[k] && a[k] in a;
    assert forall k :: 0 <= k < i ==> u[k] == u[..i][k] && u[k] in u[..i];
  }

  /** A text with a line feed is its first line, a line feed and the rest. */
  lemma Feed(u: string) returns (a: string, b: string)
    requires '\n' in u
    ensures '\n' !in a && u == a + "\n" + b && |b| < |u|
  {
    var i := IndexOf(u, '\n');
    a, b := u[..i], u[i + 1..];
  }

  /** A line with an equals sign is a prefix, that sign and the rest. */
  lemma Signed(b: string) returns (q: string, v: string)
    requires '=' in Line(b)
    ensures '=' !in q && '\n' !in q && b == q + "=" + v && IndexOf(Line(b), '=') == |q|
    ensures b[..|q|] == q && b[|q| + 1..] == v && |v| < |b|
  {
    var e := IndexOf(Line(b), '=');
    q, v := b[..e], b[e + 1..];
    assert q == Line(b)[..e];
    assert forall k :: 0 <= k < e ==> q[k] in Line(b);
    if '\n' in b { assert forall k :: 0 <= k < |Line(b)| ==> Line(b)[k] == b[..IndexOf(b, '\n')][k]; }
  }

  lemma CutAtSign(p: string, a: string, q: string, v: string)
    requires '\n' !in a && '=' !in q && '\n' !in q
    ensures CutOne(Decl(p, a + "\n" + (q + "=" + v))) == [Decl(p, a)] + CutOne(Decl(q, v))
  {
    var b := q + "=" + v;
    FirstFeed(a, b);
    SignedLine(q, v);
  }

  /** The first equals sign of the first line is the one after q. */
  lemma SignedLine(q: string, v: string)
    requires '=' !in q && '\n' !in q
    ensures var b := q + "=" + v; '=' in Line(b) && IndexOf(Line(b), '=') == |q| && b[..|q|] == q && b[|q| + 1..] == v
  {
    var b := q + "=" + v;
    assert forall k :: 0 <= k < |q| ==> b[k] == q[k] && q[k] in q;
    assert b[|q|] == '=';
    if '\n' in b { assert |q| < IndexOf(b, '\n'); }
    assert Line(b)[|q|] == '=';
    var e := IndexOf(Line(b), '=');
    assert forall k :: 0 <= k < e ==> Line(b)[k] == Line(b)[..e][k] && Line(b)[k] in Line(b)[..e];
    assert forall k :: 0 <= k <= |q| ==> Line(b)[k] == b[k];
  }

  lemma CutPast(p: string, a: string, b: string)
    requires '\n' !in a && '=' !in Line(b)
    ensures var more := CutOne(Decl(p, b)); CutOne(Decl(p, a + "\n" + b)) == [Decl(p, a + "\n" + more[0].uri)] + more[1..]
  {
    FirstFeed(a, b);
  }

  lemma {:induction false} CutOneKeepsKey(d: Decl)
    ensures ContextKey(CutOne(d)) == ContextKey([d])
    decreases |d.uri|
  {
    if '\n' in d.uri {
      var a, b := Feed(d.uri);
      if '=' in Line(b) {
        var q, v := Signed(b);
        CutAtSign(d.prefix, a, q, v);
        CutOneKeepsKey(Decl(q, v));
        SignedKey(d.prefix, a, q, v);
        KeyOfBoth([Decl(d.prefix, a)], CutOne(Decl(q, v)));
      } else {
        CutPast(d.prefix, a, b);
        CutOneKeepsKey(Decl(d.prefix, b));
        PastKey(d.prefix, a, b, CutOne(Decl(d.prefix, b)));
      }
    }
  }

  lemma SignedKey(p: string, a: string, q: string, v: string)
    ensures ContextKey([Decl(p, a + "\n" + (q + "=" + v))]) == ContextKey([Decl(p, a)]) + ContextKey([Decl(q, v)])
  {
    KeyOfOne(Decl(p, a + "\n" + (q + "=" + v)));
    KeyOfOne(Decl(p, a));
    KeyOfOne(Decl(q, v));
    assert p + "=" + (a + "\n" + (q + "=" + v)) + "\n" == (p + "=" + a + "\n") + (q + "=" + v + "\n");
  }

  lemma PastKey(p: string, a: string, b: string, more: seq<Decl>)
    requires more != [] && more[0].prefix == p && ContextKey(more) == ContextKey([Decl(p, b)])
    ensures ContextKey([Decl(p, a + "\n" + more[0].uri)] + more[1..]) == ContextKey([Decl(p, a + "\n" + b)])
  {
    var first := Decl(p, a + "\n" + more[0].uri);
    KeyOfOne(Decl(p, b));
    KeyOfOne(more[0]);
    KeyOfOne(first);
    KeyOfOne(Decl(p, a + "\n" + b));
    assert more == [more[0]] + more[1..];
    KeyOfBoth([more[0]], more[1..]);
    KeyOfBoth([first], more[1..]);
    MergedKey(p, a + "\n", more[0].uri, ContextKey(more[1..]), b);
  }

  /** Text put in front of a URI is in front of it in the key. */
  lemma MergedKey(p: string, u: string, v: string, tail: string, rest: string)
    requires p + "=" + v + "\n" + tail == p + "=" + rest + "\n"
    ensures p + "=" + (u + v) + "\n" + tail == p + "=" + (u + rest) + "\n"
  {
    assert (p + "=" + v + "\n" + tail)[|p| + 1..] == v + "\n" + tail;
    assert (p + "=" + rest + "\n")[|p| + 1..] == rest + "\n";
    assert p + "=" + (u + v) + "\n" + tail == p + "=" + u + (v + "\n" + tail);
    assert p + "=" + (u + rest) + "\n" == p + "=" + u + (rest + "\n");
  }

  lemma {:induction false} CutKeepsKey(ds: seq<Decl>)
    ensures ContextKey(Cut(ds)) == ContextKey(ds)
  {
    if ds == [] {
    } else {
      CutOneKeepsKey(ds[0]);
      CutKeepsKey(ds[1..]);
      KeyOfBoth(CutOne(ds[0]), Cut(ds[1..]));
      KeyOfBoth([ds[0]], ds[1..]);
      assert ds == [ds[0]] + ds[1..];
    }
  }

  /** No line after the first reads as a declaration. */
  predicate Whole(u: string)
    decreases |u|
  {
    '\n' in u ==> var rest := u[IndexOf(u, '\n') + 1..]; '=' !in Line(rest) && Whole(rest)
  }

  predicate AllWhole(ds: seq<Decl>) { forall i :: 0 <= i < |ds| ==> Whole(ds[i].uri) }

  lemma WholeAt(a: string, b: string)
    requires '\n' !in a
    ensures Whole(a + "\n" + b) <==> '=' !in Line(b) && Whole(b)
  {
    FirstFeed(a, b);
  }

  /** One whole declaration put before, or joined to the first of, a list that is whole. */
  lemma WholeBefore(p: string, a: string, more: seq<Decl>)
    requires '=' !in p && '\n' !in p && '\n' !in a && Lawful(more) && AllWhole(more)
    ensures var r := [Decl(p, a)] + more; Lawful(r) && AllWhole(r) && Line(r[0].uri) == a
  {
  }

  lemma WholeJoined(p: string, a: string, more: seq<Decl>)
    requires '=' !in p && '\n' !in p && '\n' !in a && more != [] && Lawful(more) && AllWhole(more) && '=' !in Line(more[0].uri)
    ensures var r := [Decl(p, a + "\n" + more[0].uri)] + more[1..]; Lawful(r) && AllWhole(r) && Line(r[0].uri) == a
  {
    WholeAt(a, more[0].uri);
    FirstFeed(a, more[0].uri);
  }

  lemma {:induction false} CutOneIsWhole(d: Decl)
    requires '=' !in d.prefix && '\n' !in d.prefix
    ensures Lawful(CutOne(d)) && AllWhole(CutOne(d)) && Line(CutOne(d)[0].uri) == Line(d.uri)
    decreases |d.uri|
  {
    if '\n' in d.uri {
      var a, b := Feed(d.uri);
      FirstFeed(a, b);
      assert d == Decl(d.prefix, a + "\n" + b);
      if '=' in Line(b) {
        var q, v := Signed(b);
        CutAtSign(d.prefix, a, q, v);
        CutOneIsWhole(Decl(q, v));
        WholeBefore(d.prefix, a, CutOne(Decl(q, v)));
      } else {
        CutPast(d.prefix, a, b);
        CutOneIsWhole(Decl(d.prefix, b));
        WholeJoined(d.prefix, a, CutOne(Decl(d.prefix, b)));
      }
    }
  }

  lemma {:induction false} CutIsWhole(ds: seq<Decl>)
    requires Lawful(ds)
    ensures Lawful(Cut(ds)) && AllWhole(Cut(ds))
  {
    if ds == [] {
    } else {
      CutOneIsWhole(ds[0]);
      CutIsWhole(ds[1..]);
    }
  }

  /** A later line that reads as a declaration keeps a text from being whole. */
  lemma {:induction false} LaterLine(u: string, w: string)
    requires '=' in Line(w)
    ensures !Whole(u + "\n" + w)
    decreases |u|
  {
    if '\n' in u {
      var a, b := Feed(u);
      assert u + "\n" + w == a + "\n" + (b + "\n" + w);
      WholeAt(a, b + "\n" + w);
      LaterLine(b, w);
    } else {
      WholeAt(u, w);
    }
  }

  /** Where the shorter of two URIs ends, the other one goes on with a line feed. */
  lemma GoesOn(u: string, v: string, ra: string, rb: string) returns (w: string)
    requires |u| < |v| && u + "\n" + ra == v + "\n" + rb
    ensures v == u + "\n" + w && ra == w + "\n" + rb
  {
    var s := v + "\n" + rb;
    w := v[|u| + 1..];
    assert s[|u|] == (u + "\n" + ra)[|u|] == '\n';
    assert s[..|u|] == u;
    assert ra == s[|u| + 1..];
  }

  /** What starts with a lawful prefix and an equals sign has that sign in its first line. */
  lemma StartsSigned(w: string, tail: string, q: string, v: string)
    requires '=' !in q && '\n' !in q && w + "\n" + tail == q + "=" + v
    ensures '=' in Line(w)
  {
    var s := q + "=" + v;
    assert forall k :: 0 <= k < |q| ==> s[k] == q[k] && q[k] in q;
    assert s[|q|] == '=' && s[|w|] == '\n';
    assert |q| < |w|;
    assert forall k :: 0 <= k <= |q| ==> w[k] == s[k];
    assert w == q + "=" + w[|q| + 1..];
    SignedLine(q, w[|q| + 1..]);
  }

  lemma SameUri(u: string, v: string, a: seq<Decl>, tail: string)
    requires Lawful(a) && Whole(v) && u + "\n" + ContextKey(a) == v + "\n" + tail
    ensures |v| <= |u|
  {
    if |u| < |v| {
      var w := GoesOn(u, v, ContextKey(a), tail);
      KeyIsSigned(a, w, tail);
      LaterLine(u, w);
    }
  }

  lemma KeyIsSigned(a: seq<Decl>, w: string, tail: string)
    requires Lawful(a) && ContextKey(a) == w + "\n" + tail
    ensures '=' in Line(w)
  {
    assert |ContextKey(a)| > 0;
    var rest := a[0].uri + "\n" + ContextKey(a[1..]);
    assert ContextKey(a) == a[0].prefix + "=" + rest;
    StartsSigned(w, tail, a[0].prefix, rest);
  }

  /** A key has one reading in which every URI is whole. */
  lemma {:induction false} WholeReadingIsUnique(a: seq<Decl>, b: seq<Decl>)
    requires Lawful(a) && Lawful(b) && AllWhole(a) && AllWhole(b) && ContextKey(a) == ContextKey(b)
    ensures a == b
    decreases |a|
  {
    if a == [] || b == [] {
      assert a != [] ==> |ContextKey(a)| > 0;
      assert b != [] ==> |ContextKey(b)| > 0;
    } else {
      var ra, rb := ContextKey(a[1..]), ContextKey(b[1..]);
      var u, v := a[0].uri, b[0].uri;
      assert ContextKey(a) == a[0].prefix + ['='] + (u + "\n" + ra);
      assert ContextKey(b) == b[0].prefix + ['='] + (v + "\n" + rb);
      SplitAlike(a[0].prefix, u + "\n" + ra, b[0].prefix, v + "\n" + rb, '=');
      SameUri(u, v, a[1..], rb);
      SameUri(v, u, b[1..], ra);
      assert u == (u + "\n" + ra)[..|u|] == v;
      assert ra == (u + "\n" + ra)[|u| + 1..] == rb;
      WholeReadingIsUnique(a[1..], b[1..]);
      assert a == [a[0]] + a[1..] && b == [b[0]] + b[1..];
    }
  }

  /** Exactly when do two contexts share a key: when cutting their URIs gives the same declarations. */
  lemma KeysAgreeIff(a: seq<Decl>, b: seq<Decl>)
    requires Lawful(a) && Lawful(b)
    ensures ContextKey(a) == ContextKey(b) <==> Cut(a) == Cut(b)
  {
    CutKeepsKey(a);
    CutKeepsKey(b);
    if ContextKey(a) == ContextKey(b) {
      CutIsWhole(a);
      CutIsWhole(b);
      WholeReadingIsUnique(Cut(a), Cut(b));
    }
  }

  // ---- the table

  datatype Table = Table(contexts: seq<Context>, ids: map<string, nat>)

  const NEW_TABLE := Table([Context(0, [])], map["" := 0])

  function RefOf(t: Table, ds: seq<Decl>): nat {
    var key := ContextKey(Normal(ds));
    if key in t.ids then t.ids[key] else |t.contexts|
  }

  /** The table after RefFor. */
  function Referred(t: Table, ds: seq<Decl>): Table {
    var key := ContextKey(Normal(ds));
    if key in t.ids then t
    else Table(t.contexts + [Context(|t.contexts|, Normal(ds))], t.ids[key := |t.contexts|])
  }

  /** Ids are 0 .. n-1 in order, 0 is the empty context, and the map finds every context by its key. */
  predicate Proper(t: Table) {
    && t.contexts != [] && t.contexts[0].decls == []
    && (forall i :: 0 <= i < |t.contexts| ==> ProperEntry(t, i))
    && (forall k :: k in t.ids ==> t.ids[k] < |t.contexts| && ContextKey(t.contexts[t.ids[k]].decls) == k)
  }

  predicate ProperEntry(t: Table, i: nat)
    requires i < |t.contexts|
  {
    var c := t.contexts[i];
    c.id == i && InNormalForm(c.decls) && ContextKey(c.decls) in t.ids && t.ids[ContextKey(c.decls)] == i
  }

  predicate PlainTable(t: Table) { forall i :: 0 <= i < |t.contexts| ==> Plain(t.contexts[i].decls) }

  lemma NewIsProper()
    ensures Proper(NEW_TABLE) && PlainTable(NEW_TABLE)
  {
  }

  lemma ReferKeepsProper(t: Table, ds: seq<Decl>)
    requires Proper(t)
    ensures Proper(Referred(t, ds)) && t.contexts <= Referred(t, ds).contexts
    ensures var u, r := Referred(t, ds), RefOf(t, ds);
      r < |u.contexts| && ContextKey(u.contexts[r].decls) == ContextKey(Normal(ds)) && RefOf(u, ds) == r && Referred(u, ds) == u
  {
    NormalHolds(ds);
    var u, key := Referred(t, ds), ContextKey(Normal(ds));
    forall i | 0 <= i < |u.contexts|
      ensures ProperEntry(u, i)
    {
      if i < |t.contexts| { assert ProperEntry(t, i); }
    }
  }

  /** With plain declarations the reference leads to the declarations themselves. */
  lemma ReferResolves(t: Table, ds: seq<Decl>)
    requires Proper(t) && PlainTable(t) && Plain(Normal(ds))
    ensures PlainTable(Referred(t, ds))
    ensures RefOf(t, ds) < |Referred(t, ds).contexts| && Referred(t, ds).contexts[RefOf(t, ds)].decls == Normal(ds)
  {
    ReferKeepsProper(t, ds);
    KeyIsInjective(Referred(t, ds).contexts[RefOf(t, ds)].decls, Normal(ds));
  }

  /** A context already in a table is found there however the table grew. */
  lemma ReferIsStable(t: Table, u: Table, ds: seq<Decl>)
    requires Proper(t) && Proper(u) && t.contexts <= u.contexts && Referred(t, ds) == t
    ensures Referred(u, ds) == u && RefOf(u, ds) == RefOf(t, ds)
  {
    var r := RefOf(t, ds);
    ReferKeepsProper(t, ds);
    assert u.contexts[r] == t.contexts[r] && ProperEntry(u, r);
  }

  class NamespaceContextTable {
    var contexts: seq<Context>
    var ids: map<string, nat>

    ghost function Value(): Table reads this { Table(contexts, ids) }

    constructor ()
      ensures Value() == NEW_TABLE
    {
      contexts, ids := [], map[];
      new;
      var id := RefFor([]);
    }

    method RefFor(ds: seq<Decl>) returns (id: nat)
      modifies this
      ensures id == RefOf(old(Value()), ds) && Value() == Referred(old(Value()), ds)
    {
      var normalized := Normal(ds);
      var key := ContextKey(normalized);
      if key in ids { return ids[key]; }
      id := |contexts|;
      contexts := contexts + [Context(id, normalized)];
      ids := ids[key := id];
    }
  }

  // ---- the two passes

  /** The table after the first pass over the records. */
  function Collected(records: seq<seq<Decl>>): Table {
    if records == [] then NEW_TABLE else Referred(Collected(records[..|records| - 1]), records[|records| - 1])
  }

  lemma {:induction false} CollectedIsProper(records: seq<seq<Decl>>, i: nat)
    requires i <= |records|
    ensures Proper(Collected(records)) && Collected(records[..i]).contexts <= Collected(records).contexts && Proper(Collected(records[..i]))
    decreases |records|
  {
    var m := |records| - 1;
    if records == [] {
      NewIsProper();
    } else {
      CollectedIsProper(records[..m], if i < |records| then i else m);
      ReferKeepsProper(Collected(records[..m]), records[m]);
      if i == |records| {
        assert records[..i] == records;
      } else {
        assert records[..m][..i] == records[..i];
      }
    }
  }

  /** The second pass adds no context. */
  lemma SecondPassAddsNothing(records: seq<seq<Decl>>, i: nat)
    requires i < |records|
    ensures Referred(Collected(records), records[i]) == Collected(records)
    ensures RefOf(Collected(records), records[i]) < |Collected(records).contexts|
  {
    CollectedIsProper(records, i + 1);
    CollectedIsProper(records, i);
    assert records[..i + 1][..i] == records[..i];
    ReferKeepsProper(Collected(records[..i]), records[i]);
    ReferIsStable(Collected(records[..i + 1]), Collected(records), records[i]);
    ReferKeepsProper(Collected(records), records[i]);
  }

  predicate AllPlain(records: seq<seq<Decl>>) { forall i :: 0 <= i < |records| ==> Plain(Normal(records[i])) }

  lemma {:induction false} CollectedIsPlain(records: seq<seq<Decl>>)
    requires AllPlain(records)
    ensures PlainTable(Collected(records))
    decreases |records|
  {
    if records == [] {
      NewIsProper();
    } else {
      var m := |records| - 1;
      CollectedIsPlain(records[..m]);
      CollectedIsProper(records[..m], m);
      ReferResolves(Collected(records[..m]), records[m]);
    }
  }

  /** Every reference of the second pass resolves in the header of the first to the record's declarations. */
  lemma ReferencesResolve(records: seq<seq<Decl>>, i: nat)
    requires i < |records| && AllPlain(records)
    ensures var t := Collected(records); var r := RefOf(t, records[i]);
      r < |t.contexts| && t.contexts[r] == Context(r, Normal(records[i]))
  {
    CollectedIsPlain(records);
    CollectedIsProper(records, 0);
    SecondPassAddsNothing(records, i);
    var t := Collected(records);
    ReferResolves(t, records[i]);
    assert ProperEntry(t, RefOf(t, records[i]));
  }

  /** Two records share a reference exactly when their declarations have the same normal form. */
  lemma SameReferenceIffSameContext(records: seq<seq<Decl>>, i: nat, j: nat)
    requires i < |records| && j < |records| && AllPlain(records)
    ensures var t := Collected(records);
      RefOf(t, records[i]) == RefOf(t, records[j]) <==> Normal(records[i]) == Normal(records[j])
  {
    ReferencesResolve(records, i);
    ReferencesResolve(records, j);
  }

  /** References are shared exactly by contexts that are cut alike. */
  lemma SharedReferenceIff(records: seq<seq<Decl>>, i: nat, j: nat)
    requires i < |records| && j < |records| && Lawful(Normal(records[i])) && Lawful(Normal(records[j]))
    ensures var t := Collected(records);
      RefOf(t, records[i]) == RefOf(t, records[j]) <==> Cut(Normal(records[i])) == Cut(Normal(records[j]))
  {
    var t := Collected(records);
    CollectedIsProper(records, 0);
    SecondPassAddsNothing(records, i);
    SecondPassAddsNothing(records, j);
    ReferKeepsProper(t, records[i]);
    ReferKeepsProper(t, records[j]);
    KeysAgreeIff(Normal(records[i]), Normal(records[j]));
  }

  // ---- reading it back

  /** NamespaceContextByID. */
  function ById(contexts: seq<Context>): map<int, seq<Decl>> {
    if contexts == [] then map[]
    else ById(contexts[..|contexts| - 1])[contexts[|contexts| - 1].id := Normal(contexts[|contexts| - 1].decls)]
  }

  lemma ByIdStep(t: Table, n: nat)
    requires Proper(t) && n < |t.contexts|
    ensures ById(t.contexts[..n + 1]) == ById(t.contexts[..n])[n := t.contexts[n].decls]
  {
    assert t.contexts[..n + 1][..n] == t.contexts[..n];
    assert ProperEntry(t, n);
    NormalFormStays(t.contexts[n].decls);
  }

  lemma {:induction false} ByIdFinds(t: Table, n: nat, i: nat)
    requires Proper(t) && i < n <= |t.contexts|
    ensures i in ById(t.contexts[..n]) && ById(t.contexts[..n])[i] == t.contexts[i].decls
    decreases n
  {
    ByIdStep(t, n - 1);
    if i < n - 1 { ByIdFinds(t, n - 1, i); }
  }

  /**
   collectNamespaceContexts, the header, and the scan loop's references, over one unchanged
   source: what a reader looks up for each record is the record's own declarations.
   */
  method TwoPasses(records: seq<seq<Decl>>) returns (header: seq<Context>, refs: seq<nat>)
    ensures header == Collected(records).contexts && |refs| == |records|
    ensures header != [] && header[0] == Context(0, []) && forall i :: 0 <= i < |header| ==> header[i].id == i
    ensures forall i :: 0 <= i < |records| ==> refs[i] in ById(header)
    ensures AllPlain(records) ==> forall i :: 0 <= i < |records| ==> ById(header)[refs[i]] == Normal(records[i])
    ensures AllPlain(records) ==> forall i :: 0 <= i < |records| ==> refs[i] < |header| && header[refs[i]] == Context(refs[i], Normal(records[i]))
  {
    var table := new NamespaceContextTable();
    Collect(table, records);
    header := table.contexts;
    refs := Refer(table, records);
    CollectedIsProper(records, 0);
    HeaderReads(records, header, refs);
    if AllPlain(records) {
      forall i | 0 <= i < |records| ensures refs[i] < |header| && header[refs[i]] == Context(refs[i], Normal(records[i])) {
        ReferencesResolve(records, i);
      }
    }
  }

  /** collectNamespaceContexts. */
  method Collect(table: NamespaceContextTable, records: seq<seq<Decl>>)
    requires table.Value() == NEW_TABLE
    modifies table
    ensures table.Value() == Collected(records)
  {
    for i := 0 to |records|
      invariant table.Value() == Collected(records[..i])
    {
      assert records[..i + 1][..i] == records[..i];
      var _ := table.RefFor(records[i]);
    }
    assert records[..|records|] == records;
  }

  /** The references of the scan loop; the table does not grow. */
  method Refer(table: NamespaceContextTable, records: seq<seq<Decl>>) returns (refs: seq<nat>)
    requires table.Value() == Collected(records)
    modifies table
    ensures table.Value() == Collected(records) && |refs| == |records|
    ensures forall i :: 0 <= i < |records| ==> refs[i] == RefOf(Collected(records), records[i]) < |Collected(records).contexts|
  {
    refs := [];
    ghost var t := Collected(records);
    for i := 0 to |records|
      invariant table.Value() == t && |refs| == i
      invariant forall j :: 0 <= j < i ==> refs[j] == RefOf(t, records[j]) < |t.contexts|
    {
      SecondPassAddsNothing(records, i);
      var ref := table.RefFor(records[i]);
      refs := refs + [ref];
    }
  }

  lemma LookUp(t: Table, r: nat)
    requires Proper(t) && r < |t.contexts|
    ensures r in ById(t.contexts) && ById(t.contexts)[r] == t.contexts[r].decls && t.contexts[r].id == r
  {
    ByIdFinds(t, |t.contexts|, r);
    assert t.contexts[..|t.contexts|] == t.contexts;
    assert ProperEntry(t, r);
  }

  lemma RecordReads(records: seq<seq<Decl>>, i: nat)
    requires i < |records|
    ensures var t := Collected(records); var r := RefOf(t, records[i]);
      r in ById(t.contexts) && (AllPlain(records) ==> ById(t.contexts)[r] == Normal(records[i]))
  {
    CollectedIsProper(records, 0);
    SecondPassAddsNothing(records, i);
    LookUp(Collected(records), RefOf(Collected(records), records[i]));
    if AllPlain(records) { ReferencesResolve(records, i); }
  }

  lemma HeaderReads(records: seq<seq<Decl>>, header: seq<Context>, refs: seq<nat>)
    requires header == Collected(records).contexts && |refs| == |records| && Proper(Collected(records))
    requires forall j :: 0 <= j < |records| ==> refs[j] == RefOf(Collected(records), records[j]) < |header|
    ensures header[0] == Context(0, []) && forall i :: 0 <= i < |header| ==> header[i].id == i
    ensures forall i :: 0 <= i < |records| ==> refs[i] in ById(header) && (AllPlain(records) ==> ById(header)[refs[i]] == Normal(records[i]))
  {
    forall i | 0 <= i < |header|
      ensures header[i].id == i
    {
      assert ProperEntry(Collected(records), i);
    }
    forall i | 0 <= i < |records|
      ensures refs[i] in ById(header) && (AllPlain(records) ==> ById(header)[refs[i]] == Normal(records[i]))
    {
      RecordReads(records, i);
    }
  }
}
