/**
 The summary statistics of an index build, `internal/index/builder.go`: the running totals
 of the scan loop and the interpolated percentiles. Sizes are byte counts; floating point
 is modelled by reals.
 */
module IndexStats {
  import opened IndexTypes

  predicate Ascending(s: seq<nat>) { forall i, j :: 0 <= i <= j < |s| ==> s[i] <= s[j] }

  // ---- percentile

  /** Go's conversion of a non-negative float to an integer. */
  function Whole(x: real): nat
    requires x >= 0.0
  {
    x.Floor
  }

  /** The value at position `x` of a sorted list, interpolated between its neighbours. */
  function At(s: seq<nat>, x: real): real
    requires |s| > 0 && 0.0 <= x <= (|s| - 1) as real
  {
    var lower := Whole(x);
    if lower + 1 >= |s| then s[|s| - 1] as real
    else
      Mix(s[lower] as real, s[lower + 1] as real, x - lower as real)
  }

  function Mix(a: real, b: real, weight: real): real { a * (1.0 - weight) + b * weight }

  function Percentile(s: seq<nat>, p: real): nat
    requires 0.0 <= p <= 1.0
  {
    if |s| == 0 then 0
    else if |s| == 1 then s[0]
    else
      PositionInRange(|s| - 1, p);
      Rounded(s, p * (|s| - 1) as real)
  }

  function Rounded(s: seq<nat>, x: real): nat
    requires |s| > 0 && 0.0 <= x <= (|s| - 1) as real
  {
    AtIsNonNegative(s, x);
    Whole(At(s, x) + 0.5)
  }

  /** The position computed from p lies in the list. */
  lemma PositionInRange(last: nat, p: real)
    requires 0.0 <= p <= 1.0
    ensures 0.0 <= p * last as real <= last as real
  {
    Scaled(0.0, p, last as real);
    Scaled(p, 1.0, last as real);
  }

  lemma Scaled(a: real, b: real, c: real)
    requires a <= b && c >= 0.0
    ensures a * c <= b * c
  {
    assert (b - a) * c >= 0.0;
  }

  lemma Product(a: real, b: real)
    requires a >= 0.0 && b >= 0.0
    ensures a * b >= 0.0
  {
  }

  /** A weighted mean of two values lies between them. */
  lemma Between(a: real, b: real, w: real)
    requires a <= b && 0.0 <= w <= 1.0
    ensures a <= Mix(a, b, w) <= b
  {
    Product(b - a, w);
    Product(b - a, 1.0 - w);
    assert Mix(a, b, w) == a + (b - a) * w;
    assert Mix(a, b, w) == b - (b - a) * (1.0 - w);
  }

  lemma WeightGrows(a: real, b: real, v: real, w: real)
    requires a <= b && v <= w
    ensures Mix(a, b, v) <= Mix(a, b, w)
  {
    Product(w - v, b - a);
    assert Mix(a, b, w) - Mix(a, b, v) == (w - v) * (b - a);
  }

  lemma AtIsNonNegative(s: seq<nat>, x: real)
    requires |s| > 0 && 0.0 <= x <= (|s| - 1) as real
    ensures At(s, x) >= 0.0
  {
    var lower := Whole(x);
    if lower + 1 < |s| {
      var w := x - lower as real;
      Product(s[lower] as real, 1.0 - w);
      Product(s[lower + 1] as real, w);
    }
  }

  /**
   The percentile is the whole number nearest to the value on the straight line between the
   two entries around its position; a value halfway between two numbers goes up.
   */
  lemma PercentileIsNearest(s: seq<nat>, p: real, lower: nat)
    requires 0.0 <= p <= 1.0 && lower + 1 < |s| && lower as real <= p * (|s| - 1) as real < (lower + 1) as real
    ensures var line := s[lower] as real + (p * (|s| - 1) as real - lower as real) * (s[lower + 1] as real - s[lower] as real);
      line - 0.5 < Percentile(s, p) as real <= line + 0.5
  {
    var x := p * (|s| - 1) as real;
    var w := x - lower as real;
    PositionInRange(|s| - 1, p);
    assert Whole(x) == lower;
    assert Mix(s[lower] as real, s[lower + 1] as real, w) == s[lower] as real + w * (s[lower + 1] as real - s[lower] as real);
    AtIsNonNegative(s, x);
  }

  /** An interpolated value lies between the two entries around its position. */
  lemma AtIsBetween(s: seq<nat>, x: real)
    requires |s| > 0 && 0.0 <= x <= (|s| - 1) as real && Ascending(s)
    ensures Whole(x) < |s| && s[Whole(x)] as real <= At(s, x)
    ensures Whole(x) + 1 < |s| ==> At(s, x) <= s[Whole(x) + 1] as real
    ensures s[0] as real <= At(s, x) <= s[|s| - 1] as real
  {
    var lower := Whole(x);
    if lower + 1 < |s| {
      assert s[0] <= s[lower] <= s[lower + 1] <= s[|s| - 1];
      Between(s[lower] as real, s[lower + 1] as real, x - lower as real);
    }
  }

  lemma AtGrows(s: seq<nat>, x: real, y: real)
    requires |s| > 0 && 0.0 <= x <= y <= (|s| - 1) as real && Ascending(s)
    ensures At(s, x) <= At(s, y)
  {
    AtIsBetween(s, x);
    AtIsBetween(s, y);
    var i, j := Whole(x), Whole(y);
    if i < j {
      assert s[i + 1] <= s[j];
    } else if i + 1 < |s| {
      WeightGrows(s[i] as real, s[i + 1] as real, x - i as real, y - i as real);
    }
  }

  lemma RoundedGrows(s: seq<nat>, x: real, y: real)
    requires |s| > 0 && 0.0 <= x <= y <= (|s| - 1) as real && Ascending(s)
    ensures Rounded(s, x) <= Rounded(s, y)
  {
    AtGrows(s, x, y);
    AtIsNonNegative(s, x);
  }

  /** Where two percentiles lie in the list. */
  lemma Positions(s: seq<nat>, p: real, q: real) returns (x: real, y: real)
    requires 0.0 <= p <= q <= 1.0 && |s| > 1
    ensures 0.0 <= x <= y <= (|s| - 1) as real && Percentile(s, p) == Rounded(s, x) && Percentile(s, q) == Rounded(s, y)
  {
    PositionInRange(|s| - 1, p);
    PositionInRange(|s| - 1, q);
    Scaled(p, q, (|s| - 1) as real);
    x, y := p * (|s| - 1) as real, q * (|s| - 1) as real;
  }

  /** Percentiles grow with p. */
  lemma PercentileGrows(s: seq<nat>, p: real, q: real)
    requires 0.0 <= p <= q <= 1.0 && Ascending(s)
    ensures Percentile(s, p) <= Percentile(s, q)
  {
    if |s| > 1 {
      var x, y := Positions(s, p, q);
      RoundedGrows(s, x, y);
    }
  }

  /** Rounding keeps a value within integer bounds. */
  lemma PercentileInRange(s: seq<nat>, p: real)
    requires 0.0 <= p <= 1.0 && Ascending(s) && |s| > 0
    ensures s[0] <= Percentile(s, p) <= s[|s| - 1]
  {
    if |s| > 1 {
      PositionInRange(|s| - 1, p);
      AtIsBetween(s, p * (|s| - 1) as real);
    }
  }

  lemma PercentileEnds(s: seq<nat>)
    requires |s| > 0 && Ascending(s)
    ensures Percentile(s, 0.0) == s[0] && Percentile(s, 1.0) == s[|s| - 1]
  {
    if |s| > 1 {
      assert 0.0 * (|s| - 1) as real == 0.0 && 1.0 * (|s| - 1) as real == (|s| - 1) as real;
    }
  }

  // ---- sorting

  function Insert(x: nat, s: seq<nat>): seq<nat> {
    if s == [] then [x] else if x <= s[0] then [x] + s else [s[0]] + Insert(x, s[1..])
  }

  lemma {:induction false} InsertKeeps(x: nat, s: seq<nat>)
    ensures multiset(Insert(x, s)) == multiset(s) + multiset{x}
    decreases |s|
  {
    if s != [] {
      assert s == [s[0]] + s[1..];
      if x > s[0] { InsertKeeps(x, s[1..]); }
    }
  }

  lemma {:induction false} InsertAbove(x: nat, s: seq<nat>, low: nat)
    requires low <= x && forall i :: 0 <= i < |s| ==> low <= s[i]
    ensures forall i :: 0 <= i < |Insert(x, s)| ==> low <= Insert(x, s)[i]
    decreases |s|
  {
    if s != [] && x > s[0] { InsertAbove(x, s[1..], low); }
  }

  lemma {:induction false} InsertOrders(x: nat, s: seq<nat>)
    requires Ascending(s)
    ensures Ascending(Insert(x, s))
    decreases |s|
  {
    if s != [] && x > s[0] {
      InsertOrders(x, s[1..]);
      InsertAbove(x, s[1..], s[0]);
    }
  }

  function Sorted(s: seq<nat>): (r: seq<nat>)
    ensures Ascending(r) && multiset(r) == multiset(s)
  {
    if s == [] then []
    else
      assert s == s[..|s| - 1] + [s[|s| - 1]];
      InsertKeeps(s[|s| - 1], Sorted(s[..|s| - 1]));
      InsertOrders(s[|s| - 1], Sorted(s[..|s| - 1]));
      Insert(s[|s| - 1], Sorted(s[..|s| - 1]))
  }

  // ---- the running statistics

  function Sum(s: seq<nat>): nat {
    if s == [] then 0 else Sum(s[..|s| - 1]) + s[|s| - 1]
  }

  predicate IsMin(m: int, s: seq<nat>) { m in s && forall x :: x in s ==> m <= x }

  predicate IsMax(m: int, s: seq<nat>) { m in s && forall x :: x in s ==> x <= m }

  datatype Wanted = Wanted(p50: bool, p95: bool, p99: bool)

  lemma StatStep(sizes: seq<nat>, i: nat)
    requires i < |sizes|
    ensures Sum(sizes[..i + 1]) == Sum(sizes[..i]) + sizes[i]
  {
    assert sizes[..i + 1][..i] == sizes[..i];
  }

  lemma Extremes(sizes: seq<nat>, i: nat, low: int, high: int)
    requires i < |sizes| && if i == 0 then low == -1 && high == 0 else IsMin(low, sizes[..i]) && IsMax(high, sizes[..i])
    ensures i > 0 ==> low >= 0
    ensures IsMin(if low == -1 || sizes[i] < low then sizes[i] else low, sizes[..i + 1])
    ensures IsMax(if sizes[i] > high then sizes[i] else high, sizes[..i + 1])
  {
    assert sizes[..i + 1] == sizes[..i] + [sizes[i]];
    if i > 0 {
      var k :| 0 <= k < i && sizes[..i][k] == low;
      assert sizes[..i][k] >= 0;
    }
  }

  /** The scan loop's totals; the smallest starts at -1 and is 0 for no record. */
  method Running(sizes: seq<nat>) returns (total: nat, low: int, high: int)
    ensures total == Sum(sizes)
    ensures if sizes == [] then low == 0 && high == 0 else IsMin(low, sizes) && IsMax(high, sizes)
  {
    total, low, high := 0, -1, 0;
    for i := 0 to |sizes|
      invariant total == Sum(sizes[..i])
      invariant if i == 0 then low == -1 && high == 0 else IsMin(low, sizes[..i]) && IsMax(high, sizes[..i])
    {
      StatStep(sizes, i);
      Extremes(sizes, i, low, high);
      total := total + sizes[i];
      if low == -1 || sizes[i] < low { low := sizes[i]; }
      if sizes[i] > high { high := sizes[i]; }
    }
    assert sizes[..|sizes|] == sizes;
    if |sizes| == 0 { low := 0; }
  }

  /** The summary of a build: every figure is its definition, and the percentiles lie in order. */
  method Summarize(sizes: seq<nat>, want: Wanted) returns (r: Summary)
    ensures r.total == |sizes| && r.bytes == Sum(sizes)
    ensures if sizes == [] then r.min == 0 && r.max == 0 && r.avg == 0.0
            else IsMin(r.min, sizes) && IsMax(r.max, sizes) && r.avg == Sum(sizes) as real / |sizes| as real
    ensures r.p50 == if want.p50 then Percentile(Sorted(sizes), 0.50) else 0
    ensures r.p95 == if want.p95 then Percentile(Sorted(sizes), 0.95) else 0
    ensures r.p99 == if want.p99 then Percentile(Sorted(sizes), 0.99) else 0
    ensures sizes != [] && want == Wanted(true, true, true) ==> r.min <= r.p50 <= r.p95 <= r.p99 <= r.max
  {
    var total, low, high := Running(sizes);
    var kept := if want.p50 || want.p95 || want.p99 then sizes else [];
    var avg := if |sizes| > 0 then total as real / |sizes| as real else 0.0;
    var p50, p95, p99 := 0, 0, 0;
    if |kept| > 0 {
      var sorted := Sorted(kept);
      if want.p50 { p50 := Percentile(sorted, 0.50); }
      if want.p95 { p95 := Percentile(sorted, 0.95); }
      if want.p99 { p99 := Percentile(sorted, 0.99); }
    }
    r := Summary(|sizes|, total, avg, low, high, p50, p95, p99);
    PercentilesInOrder(sizes);
  }

  lemma SortedEnds(s: seq<nat>)
    requires s != []
    ensures |Sorted(s)| == |s| && IsMin(Sorted(s)[0], s) && IsMax(Sorted(s)[|s| - 1], s)
  {
    var t := Sorted(s);
    assert |t| == |multiset(t)| == |multiset(s)| == |s|;
    assert forall x :: x in t <==> x in multiset(t);
    assert forall x :: x in s <==> x in multiset(s);
    assert t[0] in t && t[|t| - 1] in t;
  }

  /** For every list of sizes: the smallest, the three percentiles and the largest are in order. */
  lemma PercentilesInOrder(sizes: seq<nat>)
    ensures var t := Sorted(sizes);
      Percentile(t, 0.50) <= Percentile(t, 0.95) <= Percentile(t, 0.99)
    ensures sizes != [] ==> forall m, n :: IsMin(m, sizes) && IsMax(n, sizes) ==>
      m <= Percentile(Sorted(sizes), 0.50) && Percentile(Sorted(sizes), 0.99) <= n
  {
    var t := Sorted(sizes);
    PercentileGrows(t, 0.50, 0.95);
    PercentileGrows(t, 0.95, 0.99);
    if sizes != [] {
      SortedEnds(sizes);
      PercentileInRange(t, 0.50);
      PercentileInRange(t, 0.99);
    }
  }
}
