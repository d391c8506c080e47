/**
 The field states of the value profile, `internal/valueprofile/collector.go`: observing one
 value, merging a staged state into a committed one, and what both must add up to.
 `Reflects` says, without regard to order, what a state is of a list of observations.
 */
module ValueProfile {
  import opened Wrappers

  /** A field of one record: absent or empty, or a text with its number if it has one. */
  datatype Obs = Null | Value(text: string, num: Option<real>)

  const MAX_INT := 0x7fff_ffff_ffff_ffff

  datatype Shape = Shape(uuid: bool, email: bool, free: bool, empty: bool, init: bool)

  /** `distinct` is empty once `capped`: the source drops the map. */
  datatype FieldState = FieldState(
    count: nat, nullCount: nat, lens: Lens, nums: Nums, sawNonEmpty: bool,
    distinct: map<string, nat>, capped: bool, shape: Shape)

  datatype Lens = Lens(min: int, max: int, sum: nat, n: nat)

  datatype Nums = Nums(min: real, max: real, has: bool, all: bool)

  const NEW_STATE := FieldState(0, 0, Lens(MAX_INT, 0, 0, 0), Nums(0.0, 0.0, false, true), false, map[], false, NEW_SHAPE)

  const NEW_SHAPE := Shape(false, false, false, false, false)

  // ---- the two patterns

  predicate Hex(c: char) { '0' <= c <= '9' || 'a' <= c <= 'f' || 'A' <= c <= 'F' }

  predicate IsUuid(s: string) {
    |s| == 36 && forall i :: 0 <= i < 36 ==> if i in {8, 13, 18, 23} then s[i] == '-' else Hex(s[i])
  }

  predicate Plain(s: string) { s != "" && forall c :: c in s ==> c !in {'@', ' ', '\t', '\n', '\r', '\U{000C}'} }

  predicate IsEmail(s: string) {
    exists at, dot :: 0 <= at < dot < |s| && s[at] == '@' && s[dot] == '.'
      && Plain(s[..at]) && Plain(s[at + 1..dot]) && Plain(s[dot + 1..])
  }

  predicate HexText(s: string, n: nat) { |s| == n && forall i :: 0 <= i < n ==> Hex(s[i]) }

  ghost predicate UuidForm(s: string, a: string, b: string, c: string, d: string, e: string) {
    s == a + "-" + b + "-" + c + "-" + d + "-" + e && HexText(a, 8) && HexText(b, 4) && HexText(c, 4) && HexText(d, 4) && HexText(e, 12)
  }

  ghost predicate EmailForm(s: string, a: string, b: string, c: string) {
    s == a + "@" + b + "." + c && Plain(a) && Plain(b) && Plain(c)
  }

  lemma FormIsUuid(s: string, a: string, b: string, c: string, d: string, e: string)
    requires UuidForm(s, a, b, c, d, e)
    ensures IsUuid(s)
  {
    assert s[..8] == a && s[8] == '-' && s[9..13] == b && s[13] == '-' && s[14..18] == c && s[18] == '-' && s[19..23] == d && s[23] == '-' && s[24..] == e;
    forall i | 0 <= i < 36 ensures if i in {8, 13, 18, 23} then s[i] == '-' else Hex(s[i]) {
      if i < 8 { assert s[i] == a[i]; }
      else if 8 < i < 13 { assert s[i] == b[i - 9]; }
      else if 13 < i < 18 { assert s[i] == c[i - 14]; }
      else if 18 < i < 23 { assert s[i] == d[i - 19]; }
      else if 23 < i { assert s[i] == e[i - 24]; }
    }
  }

  /** A uuid is five groups of 8, 4, 4, 4 and 12 hexadecimal digits, joined by hyphens. */
  lemma UuidIff(s: string)
    ensures IsUuid(s) <==> exists a, b, c, d, e :: UuidForm(s, a, b, c, d, e)
  {
    if IsUuid(s) {
      assert s == s[..8] + "-" + s[9..13] + "-" + s[14..18] + "-" + s[19..23] + "-" + s[24..];
      assert UuidForm(s, s[..8], s[9..13], s[14..18], s[19..23], s[24..]);
    }
    if a, b, c, d, e :| UuidForm(s, a, b, c, d, e) { FormIsUuid(s, a, b, c, d, e); }
  }

  lemma EmailHasForm(s: string) returns (a: string, b: string, c: string)
    requires IsEmail(s)
    ensures EmailForm(s, a, b, c)
  {
    var at, dot :| 0 <= at < dot < |s| && s[at] == '@' && s[dot] == '.' && Plain(s[..at]) && Plain(s[at + 1..dot]) && Plain(s[dot + 1..]);
    CutAt(s, at, dot);
    a, b, c := s[..at], s[at + 1..dot], s[dot + 1..];
  }

  lemma CutAt(s: string, at: nat, dot: nat)
    requires at < dot < |s| && s[at] == '@' && s[dot] == '.'
    ensures s == s[..at] + "@" + s[at + 1..dot] + "." + s[dot + 1..]
  {
  }

  lemma Parts(a: string, b: string, c: string)
    ensures var s := a + "@" + b + "." + c; var at, dot := |a|, |a| + 1 + |b|;
      dot < |s| && s[at] == '@' && s[dot] == '.' && s[..at] == a && s[at + 1..dot] == b && s[dot + 1..] == c
  {
  }

  /** An email is two texts around an at sign, the second with a dot inside, and no white space or further at sign. */
  lemma EmailIff(s: string)
    ensures IsEmail(s) <==> exists a, b, c :: EmailForm(s, a, b, c)
  {
    if IsEmail(s) { var a, b, c := EmailHasForm(s); }
    if a, b, c :| EmailForm(s, a, b, c) { Parts(a, b, c); }
  }

  // ---- observing a value

  function SeeLength(l: Lens, n: nat): Lens {
    Lens(if n < l.min then n else l.min, if n > l.max then n else l.max, l.sum + n, l.n + 1)
  }

  function SeeNumber(m: Nums, f: Option<real>): Nums {
    match f
    case None => m.(all := false)
    case Some(x) =>
      if !m.has then m.(min := x, max := x, has := true)
      else m.(min := if x < m.min then x else m.min, max := if x > m.max then x else m.max)
  }

  function SeeShape(a: Shape, text: string): Shape {
    if text == "" then a.(empty := true)
    else if !a.init then Shape(IsUuid(text), IsEmail(text), !IsUuid(text) && !IsEmail(text), a.empty, true)
    else
      var b := a.(uuid := a.uuid && IsUuid(text), email := a.email && IsEmail(text));
      b.(free := b.free || (!b.uuid && !b.email))
  }

  function SeeText(s: FieldState, text: string, cap: nat): FieldState {
    if s.capped then s
    else if text in s.distinct then s.(distinct := s.distinct[text := s.distinct[text] + 1])
    else if |s.distinct| >= cap then s.(capped := true, distinct := map[])
    else s.(distinct := s.distinct[text := 1])
  }

  function Observe(s: FieldState, o: Obs, cap: nat): FieldState {
    match o
    case Null => s.(count := s.count + 1, nullCount := s.nullCount + 1)
    case Value(text, num) =>
      var t := SeeText(s, text, cap);
      t.(count := s.count + 1, lens := SeeLength(s.lens, |text|), nums := SeeNumber(s.nums, num),
         sawNonEmpty := true, shape := SeeShape(s.shape, text))
  }

  // ---- merging

  function MergeLens(l: Lens, k: Lens): Lens {
    if k.n == 0 then l
    else Lens(if l.n == 0 || k.min < l.min then k.min else l.min, if k.max > l.max then k.max else l.max, l.sum + k.sum, l.n + k.n)
  }

  function MergeNums(m: Nums, k: Nums): Nums {
    var r :=
      if !k.has then m
      else if !m.has then m.(min := k.min, max := k.max, has := true)
      else m.(min := if k.min < m.min then k.min else m.min, max := if k.max > m.max then k.max else m.max);
    if !k.all then r.(all := false) else r
  }

  function MergeShape(a: Shape, b: Shape): Shape {
    if !b.init && !b.empty then a
    else if !a.init then b
    else
      var c := a.(empty := a.empty || b.empty, uuid := a.uuid && b.uuid, email := a.email && b.email);
      c.(free := c.free || (!c.uuid && !c.email))
  }

  function Count(d: map<string, nat>, t: string): nat { if t in d then d[t] else 0 }

  function Added(d: map<string, nat>, e: map<string, nat>): map<string, nat> {
    map t | t in d.Keys + e.Keys :: Count(d, t) + Count(e, t)
  }

  /** What mergeFrom comes to, whatever order it walks the other map in. */
  function Merge(s: FieldState, o: FieldState, cap: nat): FieldState {
    var capped := s.capped || o.capped || |Added(s.distinct, o.distinct)| > cap;
    FieldState(s.count + o.count, s.nullCount + o.nullCount, MergeLens(s.lens, o.lens), MergeNums(s.nums, o.nums),
               s.sawNonEmpty || o.sawNonEmpty, if capped then map[] else Added(s.distinct, o.distinct), capped,
               MergeShape(s.shape, o.shape))
  }

  lemma AddedStep(d: map<string, nat>, e: map<string, nat>, r: map<string, nat>, t: string, n: nat)
    requires t !in e && r == Added(d, e)
    ensures r[t := Count(r, t) + n] == Added(d, e[t := n])
  {
  }

  lemma AddedNone(d: map<string, nat>)
    ensures Added(d, map[]) == d
  {
  }

  /** The entries of `e` for the given keys. */
  predicate Part(done: map<string, nat>, e: map<string, nat>, keys: set<string>)
    requires keys <= e.Keys
  {
    done.Keys == keys && forall t :: t in keys ==> done[t] == e[t]
  }

  lemma PartStep(done: map<string, nat>, e: map<string, nat>, keys: set<string>, t: string)
    requires keys <= e.Keys && Part(done, e, keys) && t in e && t !in keys
    ensures Part(done[t := e[t]], e, keys + {t})
  {
  }

  lemma SameMap(done: map<string, nat>, e: map<string, nat>)
    requires Part(done, e, e.Keys)
    ensures done == e
  {
  }

  lemma AddedKeys(d: map<string, nat>, e: map<string, nat>, f: map<string, nat>)
    requires e.Keys <= f.Keys
    ensures |Added(d, e)| <= |Added(d, f)|
  {
    assert Added(d, e).Keys == d.Keys + e.Keys && Added(d, f).Keys == d.Keys + f.Keys;
    Smaller(Added(d, e).Keys, Added(d, f).Keys);
  }

  /** The walk has reached `done`: these are the sums so far. */
  ghost predicate Walked(d: map<string, nat>, other: map<string, nat>, todo: set<string>, r: map<string, nat>) {
    todo <= other.Keys && exists done :: Part(done, other, other.Keys - todo) && r == Added(d, done)
  }

  lemma WalkStep(d: map<string, nat>, other: map<string, nat>, todo: set<string>, r: map<string, nat>, value: string)
    requires Walked(d, other, todo, r) && value in todo
    ensures Walked(d, other, todo - {value}, r[value := Count(r, value) + other[value]])
  {
    var done :| Part(done, other, other.Keys - todo) && r == Added(d, done);
    AddedStep(d, done, r, value, other[value]);
    PartStep(done, other, other.Keys - todo, value);
    assert other.Keys - todo + {value} == other.Keys - (todo - {value});
  }

  lemma WalkBound(d: map<string, nat>, other: map<string, nat>, todo: set<string>, r: map<string, nat>)
    requires Walked(d, other, todo, r)
    ensures |r| <= |Added(d, other)|
  {
    var done :| Part(done, other, other.Keys - todo) && r == Added(d, done);
    AddedKeys(d, done, other);
  }

  lemma WalkEnd(d: map<string, nat>, other: map<string, nat>, r: map<string, nat>)
    requires Walked(d, other, {}, r)
    ensures r == Added(d, other)
  {
    assert other.Keys - {} == other.Keys;
    var done :| Part(done, other, other.Keys - {}) && r == Added(d, done);
    SameMap(done, other);
  }

  lemma WalkStart(d: map<string, nat>, other: map<string, nat>)
    ensures Walked(d, other, other.Keys, d)
  {
    AddedNone(d);
    var none: map<string, nat> := map[];
    assert other.Keys - other.Keys == {};
    assert Part(none, other, other.Keys - other.Keys);
  }

  /** mergeFrom's walk over the other state's values, in any order, stopping at the cap. */
  method MergeDistinct(d: map<string, nat>, other: map<string, nat>, cap: nat) returns (r: map<string, nat>, capped: bool)
    requires |d| <= cap
    ensures capped <==> |Added(d, other)| > cap
    ensures r == if capped then map[] else Added(d, other)
  {
    r, capped := d, false;
    var todo := other.Keys;
    WalkStart(d, other);
    while todo != {}
      invariant Walked(d, other, todo, r) && |r| <= cap
      decreases |todo|
    {
      var value :| value in todo;
      WalkStep(d, other, todo, r, value);
      r, todo := r[value := Count(r, value) + other[value]], todo - {value};
      if |r| > cap {
        WalkBound(d, other, todo, r);
        return map[], true;
      }
    }
    WalkEnd(d, other, r);
  }

  lemma {:induction false} Smaller<T>(a: set<T>, b: set<T>)
    requires a <= b
    ensures |a| <= |b|
    decreases |a|
  {
    if a == {} {
    } else {
      var x :| x in a;
      Smaller(a - {x}, b - {x});
    }
  }

  predicate WithinCap(s: FieldState, cap: nat) { if s.capped then s.distinct == map[] else |s.distinct| <= cap }

  method MergeFrom(s: FieldState, o: FieldState, cap: nat) returns (r: FieldState)
    requires WithinCap(s, cap) && WithinCap(o, cap)
    ensures r == Merge(s, o, cap)
  {
    r := s.(count := s.count + o.count, nullCount := s.nullCount + o.nullCount, lens := MergeLens(s.lens, o.lens),
            nums := MergeNums(s.nums, o.nums), sawNonEmpty := s.sawNonEmpty || o.sawNonEmpty, shape := MergeShape(s.shape, o.shape));
    if s.capped { return; }
    if o.capped {
      r := r.(capped := true, distinct := map[]);
      return;
    }
    var d, capped := MergeDistinct(s.distinct, o.distinct, cap);
    r := r.(distinct := d, capped := capped);
  }

  // ---- what a state is of a list of observations

  function Total(xs: seq<Obs>, f: Obs -> nat): nat {
    if xs == [] then 0 else Total(xs[..|xs| - 1], f) + f(xs[|xs| - 1])
  }

  function Nulls(o: Obs): nat { if o.Null? then 1 else 0 }
  function Values(o: Obs): nat { if o.Value? then 1 else 0 }
  function Length(o: Obs): nat { if o.Value? then |o.text| else 0 }

  /** How often a text was seen, and the texts that were. */
  function Occurs(xs: seq<Obs>, t: string): nat {
    if xs == [] then 0 else Occurs(xs[..|xs| - 1], t) + if xs[|xs| - 1].Value? && xs[|xs| - 1].text == t then 1 else 0
  }

  function TextOf(o: Obs): set<string> { if o.Value? then {o.text} else {} }

  function Texts(xs: seq<Obs>): set<string> {
    if xs == [] then {} else Texts(xs[..|xs| - 1]) + TextOf(xs[|xs| - 1])
  }

  predicate Numeric(o: Obs) { o.Value? && o.num.Some? }

  predicate ReflectsLens(l: Lens, xs: seq<Obs>) {
    && l.n == Total(xs, Values) && l.sum == Total(xs, Length)
    && l.min <= MAX_INT && 0 <= l.max
    && (forall o :: o in xs && o.Value? ==> l.min <= |o.text| <= l.max)
    && (l.min == MAX_INT || exists o :: o in xs && o.Value? && |o.text| == l.min)
    && (l.max == 0 || exists o :: o in xs && o.Value? && |o.text| == l.max)
  }

  predicate ReflectsNums(m: Nums, xs: seq<Obs>) {
    && (m.has <==> exists o :: o in xs && Numeric(o))
    && (m.all <==> forall o :: o in xs && o.Value? ==> o.num.Some?)
    && (!m.has ==> m.min == m.max == 0.0)
    && (forall o :: o in xs && Numeric(o) ==> m.min <= o.num.value <= m.max)
    && (m.has ==> exists o :: o in xs && Numeric(o) && o.num.value == m.min)
    && (m.has ==> exists o :: o in xs && Numeric(o) && o.num.value == m.max)
  }

  predicate Counts(d: map<string, nat>, xs: seq<Obs>) { forall t :: t in d ==> d[t] == Occurs(xs, t) }

  /** The values seen and how often, unless there are more than the cap. */
  predicate ReflectsTexts(d: map<string, nat>, capped: bool, xs: seq<Obs>, cap: nat) {
    && (capped <==> |Texts(xs)| > cap)
    && (if capped then d == map[] else d.Keys == Texts(xs) && Counts(d, xs))
  }

  predicate Reflects(s: FieldState, xs: seq<Obs>, cap: nat) {
    && s.count == |xs| && s.nullCount == Total(xs, Nulls)
    && ReflectsLens(s.lens, xs) && ReflectsNums(s.nums, xs)
    && (s.sawNonEmpty <==> exists o :: o in xs && o.Value?)
    && ReflectsTexts(s.distinct, s.capped, xs, cap)
  }

  /** The shape flags: over the texts that are not empty. */
  predicate ReflectsShape(a: Shape, xs: seq<Obs>) {
    && (a.init <==> exists o :: o in xs && o.Value? && o.text != "")
    && (a.uuid <==> a.init && forall o :: o in xs && o.Value? && o.text != "" ==> IsUuid(o.text))
    && (a.email <==> a.init && forall o :: o in xs && o.Value? && o.text != "" ==> IsEmail(o.text))
    && (a.free <==> a.init && !a.uuid && !a.email)
  }

  lemma TotalPush(xs: seq<Obs>, o: Obs, f: Obs -> nat)
    ensures Total(xs + [o], f) == Total(xs, f) + f(o)
  {
    assert (xs + [o])[..|xs|] == xs;
  }

  lemma {:induction false} TotalConcat(xs: seq<Obs>, ys: seq<Obs>, f: Obs -> nat)
    ensures Total(xs + ys, f) == Total(xs, f) + Total(ys, f)
    decreases |ys|
  {
    if ys == [] {
      assert xs + ys == xs;
    } else {
      TotalConcat(xs, ys[..|ys| - 1], f);
      assert (xs + ys)[..|xs + ys| - 1] == xs + ys[..|ys| - 1];
    }
  }

  /** A text was seen exactly if it occurs. */
  lemma {:induction false} SeenIffOccurs(xs: seq<Obs>, t: string)
    ensures t in Texts(xs) <==> Occurs(xs, t) > 0
    decreases |xs|
  {
    if xs == [] {
    } else {
      SeenIffOccurs(xs[..|xs| - 1], t);
    }
  }

  lemma {:induction false} OccursConcat(xs: seq<Obs>, ys: seq<Obs>, t: string)
    ensures Occurs(xs + ys, t) == Occurs(xs, t) + Occurs(ys, t)
    decreases |ys|
  {
    if ys == [] {
      assert xs + ys == xs;
    } else {
      OccursConcat(xs, ys[..|ys| - 1], t);
      assert (xs + ys)[..|xs + ys| - 1] == xs + ys[..|ys| - 1];
    }
  }

  lemma {:induction false} ValuesTotal(xs: seq<Obs>)
    ensures Total(xs, Values) == 0 <==> forall o :: o in xs ==> o.Null?
    decreases |xs|
  {
    if xs == [] {
    } else {
      var m := |xs| - 1;
      ValuesTotal(xs[..m]);
      assert xs == xs[..m] + [xs[m]];
      assert xs[m] in xs;
    }
  }

  // ---- merging adds up

  lemma MergeLensReflects(l: Lens, xs: seq<Obs>, k: Lens, ys: seq<Obs>)
    requires ReflectsLens(l, xs) && ReflectsLens(k, ys)
    ensures ReflectsLens(MergeLens(l, k), xs + ys)
  {
    TotalConcat(xs, ys, Values);
    TotalConcat(xs, ys, Length);
    ValuesTotal(xs);
    ValuesTotal(ys);
    SumOfNone(ys);
    SumOfNone(xs);
    if l.n == 0 { LensOfNone(l, xs); }
  }

  lemma {:induction false} SumOfNone(xs: seq<Obs>)
    ensures Total(xs, Values) == 0 ==> Total(xs, Length) == 0
    decreases |xs|
  {
    if xs == [] {
    } else {
      SumOfNone(xs[..|xs| - 1]);
    }
  }

  lemma LensOfNone(l: Lens, xs: seq<Obs>)
    requires ReflectsLens(l, xs) && l.n == 0
    ensures l.min == MAX_INT && l.max == 0
  {
    ValuesTotal(xs);
  }

  lemma MergeNumsReflects(m: Nums, xs: seq<Obs>, k: Nums, ys: seq<Obs>)
    requires ReflectsNums(m, xs) && ReflectsNums(k, ys)
    ensures ReflectsNums(MergeNums(m, k), xs + ys)
  {
    var zs, r := xs + ys, MergeNums(m, k);
    assert forall o :: o in zs <==> o in xs || o in ys;
    if m.has {
      var lo :| lo in xs && Numeric(lo) && lo.num.value == m.min;
      var hi :| hi in xs && Numeric(hi) && hi.num.value == m.max;
      assert lo in zs && hi in zs;
    }
    if k.has {
      var lo :| lo in ys && Numeric(lo) && lo.num.value == k.min;
      var hi :| hi in ys && Numeric(hi) && hi.num.value == k.max;
      assert lo in zs && hi in zs;
    }
    assert r.all <==> m.all && k.all;
  }

  lemma {:induction false} TextsConcat(xs: seq<Obs>, ys: seq<Obs>)
    ensures Texts(xs + ys) == Texts(xs) + Texts(ys)
    decreases |ys|
  {
    if ys == [] {
      assert xs + ys == xs;
    } else {
      TextsConcat(xs, ys[..|ys| - 1]);
      assert (xs + ys)[..|xs + ys| - 1] == xs + ys[..|ys| - 1];
    }
  }

  lemma TextsGrow(xs: seq<Obs>, ys: seq<Obs>)
    ensures |Texts(xs)| <= |Texts(xs + ys)| && |Texts(ys)| <= |Texts(xs + ys)|
  {
    TextsConcat(xs, ys);
    Smaller(Texts(xs), Texts(xs + ys));
    Smaller(Texts(ys), Texts(xs + ys));
  }

  /** A map that reflects a list gives the number of occurrences of every text, seen or not. */
  lemma CountReflects(d: map<string, nat>, xs: seq<Obs>, t: string)
    requires d.Keys == Texts(xs) && Counts(d, xs)
    ensures Count(d, t) == Occurs(xs, t)
  {
    if t !in d { SeenIffOccurs(xs, t); }
  }

  lemma AddedCounts(d: map<string, nat>, xs: seq<Obs>, e: map<string, nat>, ys: seq<Obs>)
    requires d.Keys == Texts(xs) && Counts(d, xs) && e.Keys == Texts(ys) && Counts(e, ys)
    ensures Added(d, e).Keys == Texts(xs + ys) && Counts(Added(d, e), xs + ys)
  {
    TextsConcat(xs, ys);
    forall t | t in Added(d, e)
      ensures Added(d, e)[t] == Occurs(xs + ys, t)
    {
      CountReflects(d, xs, t);
      CountReflects(e, ys, t);
      OccursConcat(xs, ys, t);
    }
  }

  lemma MergeTextsReflects(s: FieldState, xs: seq<Obs>, o: FieldState, ys: seq<Obs>, cap: nat)
    requires ReflectsTexts(s.distinct, s.capped, xs, cap) && ReflectsTexts(o.distinct, o.capped, ys, cap)
    ensures var r := Merge(s, o, cap); ReflectsTexts(r.distinct, r.capped, xs + ys, cap)
  {
    TextsGrow(xs, ys);
    if !s.capped && !o.capped {
      AddedCounts(s.distinct, xs, o.distinct, ys);
      assert |Added(s.distinct, o.distinct)| == |Added(s.distinct, o.distinct).Keys|;
    }
  }

  /** Merging two states is observing both lists. */
  lemma MergeReflects(s: FieldState, xs: seq<Obs>, o: FieldState, ys: seq<Obs>, cap: nat)
    requires Reflects(s, xs, cap) && Reflects(o, ys, cap)
    ensures Reflects(Merge(s, o, cap), xs + ys, cap)
  {
    TotalConcat(xs, ys, Nulls);
    MergeLensReflects(s.lens, xs, o.lens, ys);
    MergeNumsReflects(s.nums, xs, o.nums, ys);
    MergeTextsReflects(s, xs, o, ys, cap);
  }

  // ---- observing adds one

  lemma NewReflects(cap: nat)
    ensures Reflects(NEW_STATE, [], cap)
  {
  }

  lemma ObserveLens(l: Lens, xs: seq<Obs>, o: Obs)
    requires ReflectsLens(l, xs) && o.Value?
    ensures ReflectsLens(SeeLength(l, |o.text|), xs + [o])
  {
    TotalPush(xs, o, Values);
    TotalPush(xs, o, Length);
    assert o in xs + [o];
    if l.min != MAX_INT {
      var p :| p in xs && p.Value? && |p.text| == l.min;
      assert p in xs + [o];
    }
    if l.max != 0 {
      var p :| p in xs && p.Value? && |p.text| == l.max;
      assert p in xs + [o];
    }
  }

  lemma ObserveNums(m: Nums, xs: seq<Obs>, o: Obs)
    requires ReflectsNums(m, xs) && o.Value?
    ensures ReflectsNums(SeeNumber(m, o.num), xs + [o])
  {
    var zs := xs + [o];
    assert o in zs && forall p :: p in zs <==> p in xs || p == o;
    if m.has {
      var lo :| lo in xs && Numeric(lo) && lo.num.value == m.min;
      var hi :| hi in xs && Numeric(hi) && hi.num.value == m.max;
      assert lo in zs && hi in zs;
    }
  }

  lemma TextsPush(xs: seq<Obs>, o: Obs)
    ensures Texts(xs + [o]) == Texts(xs) + TextOf(o)
  {
    assert (xs + [o])[..|xs|] == xs;
  }

  lemma OccursPush(xs: seq<Obs>, o: Obs, t: string)
    ensures Occurs(xs + [o], t) == Occurs(xs, t) + if o.Value? && o.text == t then 1 else 0
  {
    assert (xs + [o])[..|xs|] == xs;
  }

  lemma ObserveCounts(d: map<string, nat>, xs: seq<Obs>, o: Obs)
    requires d.Keys == Texts(xs) && Counts(d, xs) && o.Value?
    ensures var e := d[o.text := Count(d, o.text) + 1]; e.Keys == Texts(xs + [o]) && Counts(e, xs + [o])
  {
    TextsPush(xs, o);
    var e := d[o.text := Count(d, o.text) + 1];
    forall t | t in e
      ensures e[t] == Occurs(xs + [o], t)
    {
      CountReflects(d, xs, t);
      OccursPush(xs, o, t);
    }
  }

  lemma ObserveTexts(s: FieldState, xs: seq<Obs>, o: Obs, cap: nat)
    requires ReflectsTexts(s.distinct, s.capped, xs, cap) && o.Value?
    ensures var r := SeeText(s, o.text, cap); ReflectsTexts(r.distinct, r.capped, xs + [o], cap)
  {
    TextsPush(xs, o);
    if s.capped {
      TextsGrow(xs, [o]);
    } else {
      ObserveCounts(s.distinct, xs, o);
      assert |s.distinct| == |Texts(xs)|;
    }
  }

  lemma ObserveReflects(s: FieldState, xs: seq<Obs>, o: Obs, cap: nat)
    requires Reflects(s, xs, cap)
    ensures Reflects(Observe(s, o, cap), xs + [o], cap)
  {
    TotalPush(xs, o, Nulls);
    if o.Value? {
      ObserveLens(s.lens, xs, o);
      ObserveNums(s.nums, xs, o);
      ObserveTexts(s, xs, o, cap);
      assert o in xs + [o];
    } else {
      NullAddsNothing(s, xs, o, cap);
    }
  }

  lemma NullAddsNothing(s: FieldState, xs: seq<Obs>, o: Obs, cap: nat)
    requires Reflects(s, xs, cap) && o.Null?
    ensures ReflectsLens(s.lens, xs + [o]) && ReflectsNums(s.nums, xs + [o]) && ReflectsTexts(s.distinct, s.capped, xs + [o], cap)
    ensures s.sawNonEmpty <==> exists p :: p in xs + [o] && p.Value?
  {
    TotalPush(xs, o, Values);
    TotalPush(xs, o, Length);
    TextsPush(xs, o);
    assert Texts(xs + [o]) == Texts(xs);
    NullCounts(s.distinct, xs, o);
    assert forall p :: p in xs + [o] && p.Value? <==> p in xs && p.Value?;
  }

  lemma NullCounts(d: map<string, nat>, xs: seq<Obs>, o: Obs)
    requires o.Null?
    ensures Counts(d, xs) <==> Counts(d, xs + [o])
  {
    forall t | t in d
      ensures Occurs(xs + [o], t) == Occurs(xs, t)
    {
      OccursPush(xs, o, t);
    }
  }

  // ---- a state is determined by what it reflects, and order does not matter

  lemma SameTexts(s: FieldState, t: FieldState, xs: seq<Obs>, cap: nat)
    requires ReflectsTexts(s.distinct, s.capped, xs, cap) && ReflectsTexts(t.distinct, t.capped, xs, cap)
    ensures s.distinct == t.distinct && s.capped == t.capped
  {
  }

  lemma SameNums(m: Nums, k: Nums, xs: seq<Obs>)
    requires ReflectsNums(m, xs) && ReflectsNums(k, xs)
    ensures m == k
  {
  }

  lemma SameLens(l: Lens, k: Lens, xs: seq<Obs>)
    requires ReflectsLens(l, xs) && ReflectsLens(k, xs)
    ensures l == k
  {
  }

  /** Two states that reflect the same observations agree on everything but the shape flags. */
  lemma ReflectsDetermines(s: FieldState, t: FieldState, xs: seq<Obs>, cap: nat)
    requires Reflects(s, xs, cap) && Reflects(t, xs, cap)
    ensures s.(shape := NEW_SHAPE) == t.(shape := NEW_SHAPE)
  {
    SameTexts(s, t, xs, cap);
    SameNums(s.nums, t.nums, xs);
    SameLens(s.lens, t.lens, xs);
  }

  function Without(xs: seq<Obs>, i: nat): (r: seq<Obs>)
    requires i < |xs|
    ensures |r| == |xs| - 1
  {
    xs[..i] + xs[i + 1..]
  }

  lemma WithoutMultiset(xs: seq<Obs>, i: nat)
    requires i < |xs|
    ensures multiset(Without(xs, i)) == multiset(xs) - multiset{xs[i]}
  {
    assert xs == xs[..i] + [xs[i]] + xs[i + 1..];
  }

  /** Taking one element out takes its share out of every sum. */
  lemma WithoutSums(xs: seq<Obs>, i: nat, f: Obs -> nat, t: string)
    requires i < |xs|
    ensures Total(xs, f) == Total(Without(xs, i), f) + f(xs[i])
    ensures Occurs(xs, t) == Occurs(Without(xs, i), t) + Occurs([xs[i]], t)
  {
    assert xs == xs[..i] + [xs[i]] + xs[i + 1..];
    TotalConcat(xs[..i] + [xs[i]], xs[i + 1..], f);
    TotalConcat(xs[..i], xs[i + 1..], f);
    TotalPush(xs[..i], xs[i], f);
    OccursConcat(xs[..i] + [xs[i]], xs[i + 1..], t);
    OccursConcat(xs[..i], xs[i + 1..], t);
    OccursConcat(xs[..i], [xs[i]], t);
  }

  lemma FindIn(xs: seq<Obs>, ys: seq<Obs>, m: nat) returns (i: nat)
    requires multiset(xs) == multiset(ys) && m < |xs|
    ensures i < |ys| && ys[i] == xs[m]
  {
    assert xs[m] in multiset(ys);
    i :| i < |ys| && ys[i] == xs[m];
  }

  lemma {:induction false} SameSums(xs: seq<Obs>, ys: seq<Obs>, f: Obs -> nat, t: string)
    requires multiset(xs) == multiset(ys)
    ensures Total(xs, f) == Total(ys, f) && Occurs(xs, t) == Occurs(ys, t)
    decreases |xs|
  {
    assert |xs| == |multiset(xs)| == |multiset(ys)| == |ys|;
    if xs == [] {
      assert ys == [];
    } else {
      var i := FindIn(xs, ys, 0);
      WithoutMultiset(xs, 0);
      WithoutMultiset(ys, i);
      SameSums(Without(xs, 0), Without(ys, i), f, t);
      WithoutSums(xs, 0, f, t);
      WithoutSums(ys, i, f, t);
    }
  }

  lemma SameElements(xs: seq<Obs>, ys: seq<Obs>)
    requires multiset(xs) == multiset(ys)
    ensures forall o :: o in xs <==> o in ys
  {
    assert forall o :: o in xs <==> o in multiset(xs);
    assert forall o :: o in ys <==> o in multiset(ys);
  }

  lemma SameTextSets(xs: seq<Obs>, ys: seq<Obs>)
    requires multiset(xs) == multiset(ys)
    ensures Texts(xs) == Texts(ys) && forall t :: Occurs(xs, t) == Occurs(ys, t)
  {
    forall t
      ensures Occurs(xs, t) == Occurs(ys, t) && (t in Texts(xs) <==> t in Texts(ys))
    {
      SameSums(xs, ys, Nulls, t);
      SeenIffOccurs(xs, t);
      SeenIffOccurs(ys, t);
    }
  }

  /** What a state reflects does not depend on the order of the observations. */
  lemma OrderIsIrrelevant(s: FieldState, xs: seq<Obs>, ys: seq<Obs>, cap: nat)
    requires multiset(xs) == multiset(ys) && Reflects(s, xs, cap)
    ensures Reflects(s, ys, cap)
  {
    SameElements(xs, ys);
    SameSums(xs, ys, Nulls, "");
    SameSums(xs, ys, Values, "");
    SameSums(xs, ys, Length, "");
    assert |xs| == |multiset(xs)| == |multiset(ys)| == |ys|;
    SameTextSets(xs, ys);
    assert ReflectsLens(s.lens, ys);
    assert ReflectsNums(s.nums, ys);
    assert ReflectsTexts(s.distinct, s.capped, ys, cap);
  }
}
