/**
 Derive-only field mappings: the two-phase evaluation of `buildProjectedRecord` in
 `internal/extract/extractor.go` and the wrappers of `internal/extract/internalfield.go`.
 Marking mappings internal must change an emitted record only by removing their keys.
 Selecting a value from the node and evaluating an expression are given functions.
 */
module InternalFields {
  import opened Text
  import opened Wrappers

  type Value = string

  /** An entry of the record map: a value, or a value in the InternalField wrapper. */
  datatype Cell = Plain(v: Value) | Wrapped(v: Value)

  type Record = map<string, Cell>

  type Scope = map<string, Value>

  /**
   A top-level mapping. `select` is what its XPath yields on the node; `evaluate` is its
   expression on a scope, with coercion. `scalar` says that the structural rules for an
   internal mapping hold: exactly one of xpath and expression, no array, nothing nested.
   */
  datatype Mapping = Mapping(
    output: string, internal: bool, byExpression: bool, scalar: bool,
    select: Result<Option<Value>>, evaluate: Scope -> Result<Option<Value>>)

  // ---- evaluation

  function Unwrapped(c: Cell): Value { c.v }

  /** storeMappedValue. */
  function Stored(rec: Record, m: Mapping, v: Option<Value>): Record {
    if v.None? then rec else rec[m.output := if m.internal then Wrapped(v.value) else Plain(v.value)]
  }

  /** buildExpressionScope. */
  function ScopeOf(rec: Record, ext: Record): Result<Scope> {
    if !(rec.Keys !! ext.Keys) then Err
    else Ok(map k | k in rec.Keys + ext.Keys :: Unwrapped(if k in rec then rec[k] else ext[k]))
  }

  /** One mapping in one of the two phases: XPath mappings first, then expressions. */
  function Mapped(rec: Record, m: Mapping, ext: Record, expressions: bool): Result<Record> {
    if m.byExpression != expressions then Ok(rec)
    else if !expressions then (if m.select.Err? then Err else Ok(Stored(rec, m, m.select.value)))
    else match ScopeOf(rec, ext)
      case Err => Err
      case Ok(scope) => var v := m.evaluate(scope); if v.Err? then Err else Ok(Stored(rec, m, v.value))
  }

  function Phase(rec: Record, ms: seq<Mapping>, ext: Record, expressions: bool): Result<Record> {
    if ms == [] then Ok(rec)
    else
      var k := |ms| - 1;
      match Phase(rec, ms[..k], ext, expressions)
      case Err => Err
      case Ok(r) => Mapped(r, ms[k], ext, expressions)
  }

  /** The mapped record before external fields. */
  function Evaluated(ms: seq<Mapping>, ext: Record): Result<Record> {
    match Phase(map[], ms, ext, false)
    case Err => Err
    case Ok(r) => Phase(r, ms, ext, true)
  }

  /** External fields join the record unless a key is taken; derive-only ones stay out. */
  function Joined(rec: Record, ext: Record): Result<Record> {
    if !(rec.Keys !! ext.Keys) then Err
    else Ok(rec + map k | k in ext && ext[k].Plain? :: ext[k])
  }

  /** projectInternalMappedFields. */
  function Projected(rec: Record): Record { map k | k in rec && rec[k].Plain? :: rec[k] }

  /** rejectExternalCollisionsWithInternalMappings: it compares trimmed names. */
  predicate Rejected(ms: seq<Mapping>, ext: Record) {
    exists i :: 0 <= i < |ms| && ms[i].internal && Trim(ms[i].output) != "" && Trim(ms[i].output) in ext
  }

  function Bind(r: Result<Record>, ext: Record): Result<Record> { if r.Err? then Err else Joined(r.value, ext) }

  function Built(ms: seq<Mapping>, ext: Record): Result<Record> {
    if Rejected(ms, ext) then Err
    else match Bind(Evaluated(ms, ext), ext)
      case Err => Err
      case Ok(r) => Ok(Projected(r))
  }

  // ---- what the mappings leave in the record

  function CellOf(m: Mapping, v: Value): Cell { if m.internal then Wrapped(v) else Plain(v) }

  predicate SameCell(a: Record, b: Record, k: string) { (k in a <==> k in b) && (k in a && k in b ==> a[k] == b[k]) }

  /** The mappings of a phase from `n` on write nothing under `k`. */
  predicate Silent(ms: seq<Mapping>, n: nat, expressions: bool, k: string) {
    forall j :: n <= j < |ms| && ms[j].byExpression == expressions ==> ms[j].output != k
  }

  /** A phase that succeeds has succeeded up to every mapping, and the later ones keep what they do not write. */
  lemma {:induction false} PhaseUpTo(rec: Record, ms: seq<Mapping>, n: nat, ext: Record, expressions: bool)
    requires n <= |ms| && Phase(rec, ms, ext, expressions).Ok?
    ensures Phase(rec, ms[..n], ext, expressions).Ok?
    ensures forall k :: Silent(ms, n, expressions, k) ==>
      SameCell(Phase(rec, ms[..n], ext, expressions).value, Phase(rec, ms, ext, expressions).value, k)
    decreases |ms|
  {
    if n == |ms| {
      assert ms[..n] == ms;
    } else {
      var m := |ms| - 1;
      PhaseUpTo(rec, ms[..m], n, ext, expressions);
      assert ms[..m][..n] == ms[..n];
      forall k | Silent(ms, n, expressions, k)
        ensures SameCell(Phase(rec, ms[..n], ext, expressions).value, Phase(rec, ms, ext, expressions).value, k)
      {
        assert Silent(ms[..m], n, expressions, k);
      }
    }
  }

  lemma PhaseStep(rec: Record, ms: seq<Mapping>, i: nat, ext: Record, expressions: bool)
    requires i < |ms| && Phase(rec, ms, ext, expressions).Ok?
    ensures Phase(rec, ms[..i], ext, expressions).Ok? && Phase(rec, ms[..i + 1], ext, expressions).Ok?
    ensures Mapped(Phase(rec, ms[..i], ext, expressions).value, ms[i], ext, expressions) == Phase(rec, ms[..i + 1], ext, expressions)
  {
    PhaseUpTo(rec, ms, i, ext, expressions);
    PhaseUpTo(rec, ms, i + 1, ext, expressions);
    assert ms[..i + 1][..i] == ms[..i];
  }

  /** The scope an expression sees: every external value, and the record so far. */
  ghost predicate Sees(scope: Scope, rec: Record, ext: Record, ms: seq<Mapping>, i: nat) {
    && (forall k :: k in ext ==> k in scope && scope[k] == ext[k].v)
    && forall k :: k !in ext && Silent(ms, i, true, k) ==> (k in scope <==> k in rec) && (k in scope && k in rec ==> scope[k] == rec[k].v)
  }

  /**
   What an expression mapping leaves in the record: its value on the external fields, on
   everything selected, and on the expressions before it, wrapped if it is internal; and no
   key if it has no value.
   */
  lemma ExpressionLeaves(ms: seq<Mapping>, ext: Record, i: nat) returns (scope: Scope)
    requires i < |ms| && ms[i].byExpression && Evaluated(ms, ext).Ok?
    ensures ms[i].evaluate(scope).Ok? && Sees(scope, Evaluated(ms, ext).value, ext, ms, i)
    ensures var rec, v, k := Evaluated(ms, ext).value, ms[i].evaluate(scope).value, ms[i].output;
      Silent(ms, i + 1, true, k) ==>
        && (v.Some? ==> k in rec && rec[k] == CellOf(ms[i], v.value))
        && (v.None? && Silent(ms, 0, false, k) && Silent(ms[..i], 0, true, k) ==> k !in rec)
  {
    var first := Phase(map[], ms, ext, false).value;
    PhaseStep(first, ms, i, ext, true);
    var before := Phase(first, ms[..i], ext, true).value;
    scope := ScopeOf(before, ext).value;
    PhaseUpTo(first, ms, i, ext, true);
    PhaseUpTo(first, ms, i + 1, ext, true);
    var k := ms[i].output;
    if Silent(ms, 0, false, k) && Silent(ms[..i], 0, true, k) {
      PhaseUpTo(map[], ms, 0, ext, false);
      PhaseUpTo(first, ms[..i], 0, ext, true);
    }
  }

  /** What an XPath mapping leaves in the record: the value selected, and no key if there is none. */
  lemma SelectionLeaves(ms: seq<Mapping>, ext: Record, i: nat)
    requires i < |ms| && !ms[i].byExpression && Evaluated(ms, ext).Ok?
    ensures ms[i].select.Ok?
    ensures var rec, v, k := Evaluated(ms, ext).value, ms[i].select.value, ms[i].output;
      Silent(ms, i + 1, false, k) && Silent(ms, 0, true, k) ==>
        && (v.Some? ==> k in rec && rec[k] == CellOf(ms[i], v.value))
        && (v.None? && Silent(ms[..i], 0, false, k) ==> k !in rec)
  {
    var first := Phase(map[], ms, ext, false).value;
    PhaseStep(map[], ms, i, ext, false);
    PhaseUpTo(map[], ms, i + 1, ext, false);
    PhaseUpTo(first, ms, 0, ext, true);
    PhaseUpTo(map[], ms[..i], 0, ext, false);
  }

  /** Every key of the record is the name of a mapping. */
  lemma KeysAreOutputs(ms: seq<Mapping>, ext: Record, k: string)
    requires Evaluated(ms, ext).Ok? && k in Evaluated(ms, ext).value
    ensures exists i :: 0 <= i < |ms| && ms[i].output == k
  {
    var first := Phase(map[], ms, ext, false).value;
    PhaseUpTo(map[], ms, 0, ext, false);
    PhaseUpTo(first, ms, 0, ext, true);
    if forall i :: 0 <= i < |ms| ==> ms[i].output != k {
      assert Silent(ms, 0, false, k) && Silent(ms, 0, true, k);
    }
  }

  /** What is emitted: the plain entries of the record and of the external fields. */
  lemma EmittedIsPlain(ms: seq<Mapping>, ext: Record, k: string)
    requires Built(ms, ext).Ok?
    ensures Evaluated(ms, ext).Ok?
    ensures var rec, out := Evaluated(ms, ext).value, Built(ms, ext).value;
      && (k in rec ==> k !in ext)
      && (k in out <==> (k in rec && rec[k].Plain?) || (k in ext && ext[k].Plain?))
      && (k in out ==> out[k] == if k in rec then rec[k] else ext[k])
  {
  }

  /** Why one phase fails: a selection or an expression does, or an output is the name of an external field. */
  ghost predicate Troubled(ms: seq<Mapping>, ext: Record) {
    exists i :: 0 <= i < |ms| && (ms[i].output in ext || (if ms[i].byExpression then exists scope :: ms[i].evaluate(scope).Err? else ms[i].select.Err?))
  }

  lemma {:induction false} PhaseSucceeds(rec: Record, ms: seq<Mapping>, ext: Record, expressions: bool)
    requires !Troubled(ms, ext) && rec.Keys !! ext.Keys
    ensures Phase(rec, ms, ext, expressions).Ok? && Phase(rec, ms, ext, expressions).value.Keys !! ext.Keys
    decreases |ms|
  {
    if ms == [] {
    } else {
      var k := |ms| - 1;
      assert !Troubled(ms[..k], ext) by {
        assert forall i :: 0 <= i < k ==> ms[..k][i] == ms[i];
      }
      PhaseSucceeds(rec, ms[..k], ext, expressions);
    }
  }

  /** A record is built unless a selection or an expression fails or an output clashes with an external field. */
  lemma BuildSucceeds(ms: seq<Mapping>, ext: Record)
    requires !Troubled(ms, ext) && !Rejected(ms, ext)
    ensures Evaluated(ms, ext).Ok? && Built(ms, ext).Ok?
  {
    PhaseSucceeds(map[], ms, ext, false);
    PhaseSucceeds(Phase(map[], ms, ext, false).value, ms, ext, true);
  }

  // ---- the reference: the same mappings with nothing internal

  function Shown(m: Mapping): Mapping { m.(internal := false) }

  function AllShown(ms: seq<Mapping>): (r: seq<Mapping>)
    ensures |r| == |ms| && forall i :: 0 <= i < |ms| ==> r[i] == Shown(ms[i])
  {
    seq(|ms|, i requires 0 <= i < |ms| => Shown(ms[i]))
  }

  function InternalNames(ms: seq<Mapping>): set<string> {
    set i | 0 <= i < |ms| && ms[i].internal :: ms[i].output
  }

  /** What the names checks of validateInternalFieldMappings give: an internal name is no other mapping's. */
  predicate Unambiguous(ms: seq<Mapping>) {
    forall i, j :: 0 <= i < |ms| && 0 <= j < |ms| && i != j && ms[i].internal ==> ms[i].output != ms[j].output
  }

  /** The two evaluations side by side: same keys, same values, wrappers exactly on internal names. */
  predicate Twins(a: Record, b: Record, names: set<string>) {
    a.Keys == b.Keys && forall k :: k in a ==> b[k] == Plain(a[k].v) && (a[k].Wrapped? <==> k in names)
  }

  lemma StoredTwins(a: Record, b: Record, ms: seq<Mapping>, i: nat, v: Option<Value>)
    requires i < |ms| && Unambiguous(ms) && Twins(a, b, InternalNames(ms))
    ensures Twins(Stored(a, ms[i], v), Stored(b, Shown(ms[i]), v), InternalNames(ms))
  {
    if v.Some? {
      var m := ms[i];
      assert m.internal <==> m.output in InternalNames(ms);
    }
  }

  lemma SameScope(a: Record, b: Record, ext: Record, names: set<string>)
    requires Twins(a, b, names)
    ensures ScopeOf(a, ext) == ScopeOf(b, ext)
  {
    if a.Keys !! ext.Keys {
      assert ScopeOf(a, ext).value == ScopeOf(b, ext).value;
    }
  }

  predicate TwinResults(a: Result<Record>, b: Result<Record>, names: set<string>) {
    (a.Err? <==> b.Err?) && (a.Ok? && b.Ok? ==> Twins(a.value, b.value, names))
  }

  lemma MappedTwins(a: Record, b: Record, ms: seq<Mapping>, i: nat, ext: Record, expressions: bool)
    requires i < |ms| && Unambiguous(ms) && Twins(a, b, InternalNames(ms))
    ensures TwinResults(Mapped(a, ms[i], ext, expressions), Mapped(b, Shown(ms[i]), ext, expressions), InternalNames(ms))
  {
    SameScope(a, b, ext, InternalNames(ms));
    if ms[i].byExpression == expressions {
      if !expressions {
        if ms[i].select.Ok? { StoredTwins(a, b, ms, i, ms[i].select.value); }
      } else if ScopeOf(a, ext).Ok? {
        var v := ms[i].evaluate(ScopeOf(a, ext).value);
        if v.Ok? { StoredTwins(a, b, ms, i, v.value); }
      }
    }
  }

  lemma {:induction false} PhaseTwins(a: Record, b: Record, ms: seq<Mapping>, n: nat, ext: Record, expressions: bool)
    requires n <= |ms| && Unambiguous(ms) && Twins(a, b, InternalNames(ms))
    ensures TwinResults(Phase(a, ms[..n], ext, expressions), Phase(b, AllShown(ms)[..n], ext, expressions), InternalNames(ms))
    decreases n
  {
    if n == 0 {
    } else {
      PhaseTwins(a, b, ms, n - 1, ext, expressions);
      assert ms[..n][..n - 1] == ms[..n - 1] && AllShown(ms)[..n][..n - 1] == AllShown(ms)[..n - 1];
      var x, y := Phase(a, ms[..n - 1], ext, expressions), Phase(b, AllShown(ms)[..n - 1], ext, expressions);
      if x.Ok? { MappedTwins(x.value, y.value, ms, n - 1, ext, expressions); }
    }
  }

  lemma EvaluatedTwins(ms: seq<Mapping>, ext: Record)
    requires Unambiguous(ms)
    ensures TwinResults(Evaluated(ms, ext), Evaluated(AllShown(ms), ext), InternalNames(ms))
  {
    PhaseTwins(map[], map[], ms, |ms|, ext, false);
    assert ms[..|ms|] == ms && AllShown(ms)[..|ms|] == AllShown(ms);
    var x, y := Phase(map[], ms, ext, false), Phase(map[], AllShown(ms), ext, false);
    if x.Ok? { PhaseTwins(x.value, y.value, ms, |ms|, ext, true); }
  }

  // ---- the projection theorem

  /** Some emitted external field carries an internal mapping's very name. */
  predicate Shadows(ms: seq<Mapping>, ext: Record) {
    exists k :: k in ext && ext[k].Plain? && k in InternalNames(ms)
  }

  lemma JoinedProjects(a: Record, b: Record, ms: seq<Mapping>, ext: Record)
    requires Twins(a, b, InternalNames(ms)) && a.Keys !! ext.Keys
    ensures Projected(Joined(a, ext).value) == Joined(b, ext).value - InternalNames(ms) <==> !Shadows(ms, ext)
  {
    var names := InternalNames(ms);
    var p, q := Projected(Joined(a, ext).value), Joined(b, ext).value - names;
    if Shadows(ms, ext) {
      var k :| k in ext && ext[k].Plain? && k in names;
      assert k !in a;
      assert k in p && k !in q;
    } else {
      forall k
        ensures k in p <==> k in q
        ensures k in p && k in q ==> p[k] == q[k]
      {
        if k in a { assert k !in ext; }
      }
      assert p == q;
    }
  }

  /**
   Built with internal mappings, the record is the one built with none, less the internal
   names; and both fail together. Exactly so unless an external field is shadowed.
   */
  lemma ProjectionIsDeletion(ms: seq<Mapping>, ext: Record)
    requires Unambiguous(ms) && !Rejected(ms, ext)
    ensures Built(ms, ext).Ok? <==> Built(AllShown(ms), ext).Ok?
    ensures Built(ms, ext).Ok? ==>
      (Built(ms, ext).value == Built(AllShown(ms), ext).value - InternalNames(ms) <==> !Shadows(ms, ext))
  {
    EvaluatedTwins(ms, ext);
    assert !Rejected(AllShown(ms), ext);
    var a, b := Evaluated(ms, ext), Evaluated(AllShown(ms), ext);
    if a.Ok? && a.value.Keys !! ext.Keys {
      JoinedProjects(a.value, b.value, ms, ext);
      AllPlain(ms, ext, b.value);
    }
  }

  /** Nothing is wrapped in the record built with no internal mapping, so projecting it changes nothing. */
  lemma AllPlain(ms: seq<Mapping>, ext: Record, b: Record)
    requires Evaluated(AllShown(ms), ext) == Ok(b) && b.Keys !! ext.Keys && forall k :: k in b ==> b[k].Plain?
    ensures Projected(Joined(b, ext).value) == Joined(b, ext).value
  {
  }

  /** Internal names without surrounding white space cannot be shadowed: the rejection catches it. */
  lemma TrimmedNamesAreSafe(ms: seq<Mapping>, ext: Record)
    requires !Rejected(ms, ext) && forall i :: 0 <= i < |ms| && ms[i].internal ==> ms[i].output != "" && Trimmed(ms[i].output)
    ensures !Shadows(ms, ext)
  {
    if Shadows(ms, ext) {
      var k :| k in ext && ext[k].Plain? && k in InternalNames(ms);
      var i :| 0 <= i < |ms| && ms[i].internal && ms[i].output == k;
      TrimmedStays(k);
    }
  }

  /** No wrapper reaches the output. */
  lemma NoWrapperIsEmitted(ms: seq<Mapping>, ext: Record, k: string)
    requires Built(ms, ext).Ok? && k in Built(ms, ext).value
    ensures Built(ms, ext).value[k].Plain?
  {
  }

  /**
   The rejection compares the trimmed name with the external keys, but values are stored
   under the name as written: an internal name with white space around it that yields no
   value lets an external field of that very name through.
   */
  lemma UntrimmedNameIsShadowed()
    ensures var m := Mapping(" a", true, false, true, Ok(None), (s: Scope) => Err);
      var ext: Record := map[" a" := Plain("x")];
      Accepted([m], []) && Unambiguous([m]) && Built([m], ext) == Ok(map[" a" := Plain("x")]) && Built(AllShown([m]), ext).Ok? && " a" in InternalNames([m])
  {
    var m := Mapping(" a", true, false, true, Ok(None), (s: Scope) => Err);
    var ext: Record := map[" a" := Plain("x")];
    assert TrimLeft(" a") == TrimLeft(" a"[1..]) && " a"[1..] == "a" && TrimLeft("a") == "a" && Trim(" a") == "a";
    assert !Rejected([m], ext);
    assert [m][..0] == [];
    assert Phase(map[], [m], ext, false) == Ok(map[]);
    assert Phase(map[], [m], ext, true) == Ok(map[]);
    var none: Record := map[];
    assert none + PlainOf(ext, ext.Keys) == ext;
    assert Joined(none, ext).value == ext;
    assert Projected(ext) == ext;
    assert [m][0].internal && [m][0].output == " a";
    ProjectionIsDeletion([m], ext);
  }

  // ---- the loops

  /** storeMappedValue: a missing value leaves no key, an internal one is wrapped. */
  method StoreMappedValue(rec: Record, m: Mapping, v: Option<Value>) returns (r: Record)
    ensures r == Stored(rec, m, v)
  {
    if v.None? { return rec; }
    if m.internal { return rec[m.output := Wrapped(v.value)]; }
    return rec[m.output := Plain(v.value)];
  }

  function Values(rec: Record): Scope { map k | k in rec :: rec[k].v }

  /** `out` is the scope with the values of the copied keys. */
  predicate CopiedTo(scope: Scope, rec: Record, copied: set<string>, out: Scope) {
    && out.Keys == scope.Keys + copied && copied <= rec.Keys && scope.Keys !! copied
    && (forall k :: k in scope ==> out[k] == scope[k]) && forall k :: k in copied ==> out[k] == rec[k].v
  }

  lemma AllCopied(scope: Scope, rec: Record, out: Scope)
    requires CopiedTo(scope, rec, rec.Keys, out)
    ensures out == scope + Values(rec)
  {
  }

  /** The copy has everything but the keys still to do. */
  ghost predicate Copying(scope: Scope, rec: Record, todo: set<string>, out: Scope) {
    exists copied :: todo + copied == rec.Keys && todo !! copied && CopiedTo(scope, rec, copied, out)
  }

  lemma CopyStart(scope: Scope, rec: Record)
    ensures Copying(scope, rec, rec.Keys, scope)
  {
    assert rec.Keys + {} == rec.Keys && CopiedTo(scope, rec, {}, scope);
  }

  lemma CopyOne(scope: Scope, rec: Record, todo: set<string>, out: Scope, key: string)
    requires Copying(scope, rec, todo, out) && key in todo && key !in out
    ensures key in rec && Copying(scope, rec, todo - {key}, out[key := rec[key].v])
  {
    var copied :| todo + copied == rec.Keys && todo !! copied && CopiedTo(scope, rec, copied, out);
    assert (todo - {key}) + (copied + {key}) == rec.Keys;
    assert CopiedTo(scope, rec, copied + {key}, out[key := rec[key].v]);
  }

  lemma CopyClash(scope: Scope, rec: Record, todo: set<string>, out: Scope, key: string)
    requires Copying(scope, rec, todo, out) && key in todo
    ensures key in rec && (key in out <==> key in scope)
  {
  }

  lemma CopyEnd(scope: Scope, rec: Record, out: Scope)
    requires Copying(scope, rec, {}, out)
    ensures CopiedTo(scope, rec, rec.Keys, out)
  {
    var copied :| {} + copied == rec.Keys && {} !! copied && CopiedTo(scope, rec, copied, out);
  }

  /** Copies the unwrapped values in any order; a key already taken is an error. */
  method CopyInto(scope: Scope, rec: Record) returns (r: Result<Scope>)
    ensures r.Ok? <==> scope.Keys !! rec.Keys
    ensures r.Ok? ==> CopiedTo(scope, rec, rec.Keys, r.value)
  {
    var out, todo := scope, rec.Keys;
    CopyStart(scope, rec);
    while todo != {}
      invariant Copying(scope, rec, todo, out)
      decreases |todo|
    {
      var key :| key in todo;
      CopyClash(scope, rec, todo, out, key);
      if key in out { return Err; }
      CopyOne(scope, rec, todo, out, key);
      out := out[key := rec[key].v];
      todo := todo - {key};
    }
    CopyEnd(scope, rec, out);
    return Ok(out);
  }

  /** buildExpressionScope: internals are visible with their real values, and external keys must be free. */
  method BuildExpressionScope(rec: Record, ext: Record) returns (r: Result<Scope>)
    ensures r == ScopeOf(rec, ext)
  {
    var own := CopyInto(map[], rec);
    r := CopyInto(own.value, ext);
    if r.Ok? {
      AllCopied(map[], rec, own.value);
      AllCopied(own.value, ext, r.value);
      assert r.value == ScopeOf(rec, ext).value;
    }
  }

  method EvaluateExpression(m: Mapping, rec: Record, ext: Record) returns (r: Result<Option<Value>>)
    ensures r == match ScopeOf(rec, ext) { case Err => Err case Ok(scope) => m.evaluate(scope) }
  {
    var scope := BuildExpressionScope(rec, ext);
    if scope.Err? { return Err; }
    return m.evaluate(scope.value);
  }

  /** Evaluates one phase over the mappings in declaration order. */
  method RunPhase(start: Record, ms: seq<Mapping>, ext: Record, expressions: bool) returns (r: Result<Record>)
    ensures r == Phase(start, ms, ext, expressions)
  {
    var rec := start;
    for j := 0 to |ms|
      invariant Phase(start, ms[..j], ext, expressions) == Ok(rec)
    {
      assert ms[..j + 1][..j] == ms[..j];
      if ms[j].byExpression != expressions { continue; }
      var value;
      if expressions {
        value := EvaluateExpression(ms[j], rec, ext);
      } else {
        value := ms[j].select;
      }
      if value.Err? {
        PhaseFails(start, ms, j + 1, ext, expressions);
        return Err;
      }
      rec := StoreMappedValue(rec, ms[j], value.value);
    }
    assert ms[..|ms|] == ms;
    return Ok(rec);
  }

  lemma {:induction false} PhaseFails(rec: Record, ms: seq<Mapping>, n: nat, ext: Record, expressions: bool)
    requires n <= |ms| && Phase(rec, ms[..n], ext, expressions).Err?
    ensures Phase(rec, ms, ext, expressions).Err?
    decreases |ms|
  {
    if n == |ms| {
      assert ms[..n] == ms;
    } else {
      var k := |ms| - 1;
      assert ms[..k][..n] == ms[..n];
      PhaseFails(rec, ms[..k], n, ext, expressions);
    }
  }

  /** The external fields of some keys, less the derive-only ones. */
  function PlainOf(ext: Record, keys: set<string>): Record { map k | k in ext && k in keys && ext[k].Plain? :: ext[k] }

  /** Joins the external fields in any order, stopping at the first taken key. */
  method JoinExternal(rec: Record, ext: Record) returns (r: Result<Record>)
    ensures r == Joined(rec, ext)
  {
    var todo := ext.Keys;
    var out := rec;
    while todo != {}
      invariant todo <= ext.Keys && rec.Keys !! (ext.Keys - todo)
      invariant out == rec + PlainOf(ext, ext.Keys - todo)
      decreases |todo|
    {
      var key :| key in todo;
      if key in out {
        assert key in rec;
        return Err;
      }
      JoinStep(rec, ext, ext.Keys - todo, key);
      if ext[key].Plain? { out := out[key := ext[key]]; }
      assert ext.Keys - todo + {key} == ext.Keys - (todo - {key});
      todo := todo - {key};
    }
    assert ext.Keys - todo == ext.Keys;
    assert PlainOf(ext, ext.Keys) == map k | k in ext && ext[k].Plain? :: ext[k];
    return Ok(out);
  }

  lemma JoinStep(rec: Record, ext: Record, done: set<string>, key: string)
    requires key in ext && key !in done
    ensures rec + PlainOf(ext, done + {key}) == if ext[key].Plain? then (rec + PlainOf(ext, done))[key := ext[key]] else rec + PlainOf(ext, done)
  {
  }

  /** Removes the wrapped entries in any order. */
  method Project(rec: Record) returns (r: Record)
    ensures r == Projected(rec)
  {
    var todo := rec.Keys;
    r := rec;
    while todo != {}
      invariant todo <= rec.Keys && r.Keys <= rec.Keys
      invariant forall k :: k in rec ==> (k in r <==> k in todo || rec[k].Plain?)
      invariant forall k :: k in r ==> r[k] == rec[k]
      decreases |todo|
    {
      var key :| key in todo;
      if rec[key].Wrapped? { r := r - {key}; }
      todo := todo - {key};
    }
  }

  /** buildProjectedRecord. */
  method BuildProjectedRecord(ms: seq<Mapping>, ext: Record) returns (r: Result<Record>)
    ensures r == Built(ms, ext)
  {
    for i := 0 to |ms|
      invariant forall j :: 0 <= j < i ==> !(ms[j].internal && Trim(ms[j].output) != "" && Trim(ms[j].output) in ext)
    {
      if ms[i].internal && Trim(ms[i].output) != "" && Trim(ms[i].output) in ext { return Err; }
    }
    var first := RunPhase(map[], ms, ext, false);
    if first.Err? { return Err; }
    var second := RunPhase(first.value, ms, ext, true);
    if second.Err? { return Err; }
    var joined := JoinExternal(second.value, ext);
    if joined.Err? { return Err; }
    var rec := Project(joined.value);
    return Ok(rec);
  }

  // ---- which configurations are accepted

  /** validateInternalFieldMappings, as a condition: `reserved` are the schema's and the filters' keys. */
  predicate Accepted(ms: seq<Mapping>, reserved: seq<string>) {
    && ShapesOk(ms)
    && (AnyInternal(ms) ==> DistinctNames(ms) && forall i, j :: 0 <= i < |ms| && ms[i].internal && 0 <= j < |reserved| ==> Trim(ms[i].output) != Trim(reserved[j]))
  }

  predicate AnyInternal(ms: seq<Mapping>) { exists i :: 0 <= i < |ms| && ms[i].internal }

  /** No two mappings share a trimmed name, but for empty ones. */
  predicate DistinctNames(ms: seq<Mapping>) {
    forall i, j :: 0 <= i < j < |ms| && Trim(ms[i].output) != "" ==> Trim(ms[i].output) != Trim(ms[j].output)
  }

  /** An accepted configuration is unambiguous, so the projection theorem applies to it. */
  lemma AcceptedIsUnambiguous(ms: seq<Mapping>, reserved: seq<string>)
    requires Accepted(ms, reserved)
    ensures Unambiguous(ms)
  {
    forall i, j | 0 <= i < |ms| && 0 <= j < |ms| && i != j && ms[i].internal
      ensures ms[i].output != ms[j].output
    {
      assert Trim(ms[i].output) != "" && AnyInternal(ms);
      if i < j { assert Trim(ms[i].output) != Trim(ms[j].output); }
      if j < i && Trim(ms[j].output) != "" { assert Trim(ms[j].output) != Trim(ms[i].output); }
    }
  }

  /** Under an accepted configuration whose internal names carry no white space at their ends, projection is deletion. */
  lemma AcceptedProjectionIsDeletion(ms: seq<Mapping>, reserved: seq<string>, ext: Record)
    requires Accepted(ms, reserved) && !Rejected(ms, ext) && forall i :: 0 <= i < |ms| && ms[i].internal ==> Trimmed(ms[i].output)
    ensures Built(ms, ext) == match Built(AllShown(ms), ext) { case Err => Err case Ok(r) => Ok(r - InternalNames(ms)) }
  {
    AcceptedIsUnambiguous(ms, reserved);
    forall i | 0 <= i < |ms| && ms[i].internal
      ensures ms[i].output != ""
    {
      assert Trim("") == "";
    }
    TrimmedNamesAreSafe(ms, ext);
    ProjectionIsDeletion(ms, ext);
  }

  /** And no later stage that fills or reads reserved keys can bring an internal name back. */
  lemma ReservedKeysStayClear(ms: seq<Mapping>, reserved: seq<string>, j: nat)
    requires Accepted(ms, reserved) && j < |reserved|
    ensures reserved[j] !in InternalNames(ms)
  {
    forall i | 0 <= i < |ms| && ms[i].internal
      ensures ms[i].output != reserved[j]
    {
      assert AnyInternal(ms);
    }
  }

  predicate ShapesOk(ms: seq<Mapping>) { forall i :: 0 <= i < |ms| && ms[i].internal ==> Trim(ms[i].output) != "" && ms[i].scalar }

  predicate NamesOf(ms: seq<Mapping>, i: nat, names: set<string>)
    requires i <= |ms|
  {
    (forall j :: 0 <= j < i && ms[j].internal ==> Trim(ms[j].output) in names)
    && forall n :: n in names ==> exists j :: 0 <= j < i && ms[j].internal && Trim(ms[j].output) == n
  }

  method CollectInternal(ms: seq<Mapping>) returns (ok: bool, internalNames: set<string>)
    ensures ok <==> ShapesOk(ms)
    ensures ok ==> NamesOf(ms, |ms|, internalNames)
  {
    internalNames := {};
    for i := 0 to |ms|
      invariant forall j :: 0 <= j < i && ms[j].internal ==> Trim(ms[j].output) != "" && ms[j].scalar
      invariant NamesOf(ms, i, internalNames)
    {
      if ms[i].internal {
        if Trim(ms[i].output) == "" || !ms[i].scalar { return false, internalNames; }
        internalNames := internalNames + {Trim(ms[i].output)};
      }
    }
    ok := true;
  }

  method Validate(ms: seq<Mapping>, reserved: seq<string>) returns (ok: bool)
    ensures ok <==> Accepted(ms, reserved)
  {
    var shaped, internalNames := CollectInternal(ms);
    if !shaped { return false; }
    if internalNames == {} { return true; }
    var distinct := CheckDistinct(ms);
    if !distinct { return false; }
    for j := 0 to |reserved|
      invariant forall k :: 0 <= k < j ==> Trim(reserved[k]) !in internalNames
    {
      if Trim(reserved[j]) in internalNames { return false; }
    }
    return true;
  }

  method CheckDistinct(ms: seq<Mapping>) returns (ok: bool)
    ensures ok <==> DistinctNames(ms)
  {
    var seen: set<string> := {};
    for i := 0 to |ms|
      invariant forall n :: n in seen <==> n != "" && exists j :: 0 <= j < i && Trim(ms[j].output) == n
      invariant forall a, b :: 0 <= a < b < i && Trim(ms[a].output) != "" ==> Trim(ms[a].output) != Trim(ms[b].output)
    {
      var name := Trim(ms[i].output);
      if name != "" {
        if name in seen { return false; }
        seen := seen + {name};
      }
    }
    return true;
  }
}
