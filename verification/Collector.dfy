/**
 The transactional collector of `internal/valueprofile/collector.go`: inputs are staged and
 committed or discarded, and the profile must be what direct observation of the committed
 data alone would give.
 */
module Collector {
  import opened ValueProfile
  import opened Wrappers

  // ---- one field through a history

  function Direct(xs: seq<Obs>, cap: nat): FieldState {
    if xs == [] then NEW_STATE else Observe(Direct(xs[..|xs| - 1], cap), xs[|xs| - 1], cap)
  }

  lemma {:induction false} DirectReflects(xs: seq<Obs>, cap: nat)
    ensures Reflects(Direct(xs, cap), xs, cap)
    decreases |xs|
  {
    if xs == [] {
      NewReflects(cap);
    } else {
      var m := |xs| - 1;
      DirectReflects(xs[..m], cap);
      ObserveReflects(Direct(xs[..m], cap), xs[..m], xs[m], cap);
      assert xs[..m] + [xs[m]] == xs;
    }
  }

  datatype Op = Begin | BeginIfNeeded | Commit | Discard | See(obs: Obs)

  /** The collector's two states of a field. */
  datatype Field = Field(committed: FieldState, staged: Option<FieldState>)

  function Step(c: Field, op: Op, cap: nat): Field {
    match op
    case Begin => c.(staged := Some(NEW_STATE))
    case BeginIfNeeded => if c.staged.None? then c.(staged := Some(NEW_STATE)) else c
    case Commit => if c.staged.Some? then Field(Merge(c.committed, c.staged.value, cap), None) else c
    case Discard => c.(staged := None)
    case See(o) =>
      if c.staged.Some? then c.(staged := Some(Observe(c.staged.value, o, cap)))
      else c.(committed := Observe(c.committed, o, cap))
  }

  function Played(ops: seq<Op>, cap: nat): Field {
    if ops == [] then Field(NEW_STATE, None) else Step(Played(ops[..|ops| - 1], cap), ops[|ops| - 1], cap)
  }

  /** The observations that count, and those of the open input. */
  datatype Log = Log(kept: seq<Obs>, pending: Option<seq<Obs>>)

  function Track(l: Log, op: Op): Log {
    match op
    case Begin => l.(pending := Some([]))
    case BeginIfNeeded => if l.pending.None? then l.(pending := Some([])) else l
    case Commit => if l.pending.Some? then Log(l.kept + l.pending.value, None) else l
    case Discard => l.(pending := None)
    case See(o) => if l.pending.Some? then l.(pending := Some(l.pending.value + [o])) else l.(kept := l.kept + [o])
  }

  function Logged(ops: seq<Op>): Log {
    if ops == [] then Log([], None) else Track(Logged(ops[..|ops| - 1]), ops[|ops| - 1])
  }

  predicate Agrees(c: Field, l: Log, cap: nat) {
    && Reflects(c.committed, l.kept, cap) && (c.staged.Some? <==> l.pending.Some?)
    && (c.staged.Some? && l.pending.Some? ==> Reflects(c.staged.value, l.pending.value, cap))
  }

  lemma StepAgrees(c: Field, l: Log, op: Op, cap: nat)
    requires Agrees(c, l, cap)
    ensures Agrees(Step(c, op, cap), Track(l, op), cap)
  {
    NewReflects(cap);
    match op
    case Commit => if c.staged.Some? { MergeReflects(c.committed, l.kept, c.staged.value, l.pending.value, cap); }
    case See(o) =>
      if c.staged.Some? { ObserveReflects(c.staged.value, l.pending.value, o, cap); }
      else { ObserveReflects(c.committed, l.kept, o, cap); }
    case _ =>
  }

  lemma {:induction false} HistoryAgrees(ops: seq<Op>, cap: nat)
    ensures Agrees(Played(ops, cap), Logged(ops), cap)
    decreases |ops|
  {
    if ops == [] {
      NewReflects(cap);
    } else {
      var m := |ops| - 1;
      HistoryAgrees(ops[..m], cap);
      StepAgrees(Played(ops[..m], cap), Logged(ops[..m]), ops[m], cap);
    }
  }

  /**
   Whatever inputs were opened, committed, discarded or observed directly, the committed
   state is the one direct observation of the committed data gives, in any order.
   */
  lemma CommittedIsDirect(ops: seq<Op>, xs: seq<Obs>, cap: nat)
    requires multiset(xs) == multiset(Logged(ops).kept)
    ensures Played(ops, cap).committed.(shape := NEW_SHAPE) == Direct(xs, cap).(shape := NEW_SHAPE)
  {
    HistoryAgrees(ops, cap);
    DirectReflects(xs, cap);
    OrderIsIrrelevant(Played(ops, cap).committed, Logged(ops).kept, xs, cap);
    ReflectsDetermines(Played(ops, cap).committed, Direct(xs, cap), xs, cap);
  }

  /** A field is capped exactly when its committed data has more distinct values than the cap. */
  lemma CappedIffTooMany(ops: seq<Op>, cap: nat)
    ensures Played(ops, cap).committed.capped <==> |Texts(Logged(ops).kept)| > cap
  {
    HistoryAgrees(ops, cap);
  }

  // ---- the shape flags

  predicate Text(o: Obs) { o.Value? && o.text != "" }
  predicate EmptyText(o: Obs) { o.Value? && o.text == "" }
  predicate HasText(xs: seq<Obs>) { exists o :: o in xs && Text(o) }
  predicate HasEmpty(xs: seq<Obs>) { exists o :: o in xs && EmptyText(o) }

  /** Values, but only of empty text: "empty only". */
  predicate EmptyOnly(xs: seq<Obs>) { HasEmpty(xs) && !HasText(xs) }

  predicate Exact(a: Shape, xs: seq<Obs>) { ReflectsShape(a, xs) && (a.empty <==> HasEmpty(xs)) }

  lemma SeeShapeExact(a: Shape, xs: seq<Obs>, o: Obs)
    requires Exact(a, xs) && o.Value?
    ensures Exact(SeeShape(a, o.text), xs + [o])
  {
    var zs := xs + [o];
    assert o in zs;
    assert forall p :: p in zs <==> p in xs || p == o;
    if a.init {
      var p :| p in xs && Text(p);
      assert p in zs;
    }
  }

  lemma {:induction false} DirectShape(xs: seq<Obs>, cap: nat)
    ensures Exact(Direct(xs, cap).shape, xs)
    decreases |xs|
  {
    if xs == [] {
    } else {
      var m := |xs| - 1;
      DirectShape(xs[..m], cap);
      assert xs == xs[..m] + [xs[m]];
      if xs[m].Value? {
        SeeShapeExact(Direct(xs[..m], cap).shape, xs[..m], xs[m]);
      } else {
        assert forall o :: o in xs && o.Value? <==> o in xs[..m] && o.Value?;
      }
    }
  }

  /** The shape that merging an "empty only" input leaves, whatever was there. */
  predicate Freeform(a: Shape) { a.init && !a.uuid && !a.email && a.free }

  lemma MergeShapeReflects(a: Shape, xs: seq<Obs>, b: Shape, ys: seq<Obs>)
    requires ReflectsShape(a, xs) && Exact(b, ys)
    ensures if HasText(xs) && EmptyOnly(ys) then Freeform(MergeShape(a, b)) else ReflectsShape(MergeShape(a, b), xs + ys)
  {
    var zs := xs + ys;
    assert forall o :: o in zs <==> o in xs || o in ys;
    assert a.init <==> HasText(xs);
    assert b.init <==> HasText(ys);
    if HasText(xs) {
      var o :| o in xs && Text(o);
      assert o in zs;
    }
    if HasText(ys) {
      var o :| o in ys && Text(o);
      assert o in zs;
    }
  }

  lemma MergeFreeform(a: Shape, b: Shape)
    requires Freeform(a)
    ensures Freeform(MergeShape(a, b))
  {
  }

  function Flat(inputs: seq<seq<Obs>>): seq<Obs> {
    if inputs == [] then [] else Flat(inputs[..|inputs| - 1]) + inputs[|inputs| - 1]
  }

  /** The committed state after a sequence of committed inputs. */
  function Committed(inputs: seq<seq<Obs>>, cap: nat): FieldState {
    if inputs == [] then NEW_STATE
    else Merge(Committed(inputs[..|inputs| - 1], cap), Direct(inputs[|inputs| - 1], cap), cap)
  }

  /** Some committed input is "empty only" and comes after a text. */
  predicate Spoilt(inputs: seq<seq<Obs>>) {
    exists k :: 0 <= k < |inputs| && EmptyOnly(inputs[k]) && HasText(Flat(inputs[..k]))
  }

  lemma SpoiltStep(inputs: seq<seq<Obs>>)
    requires inputs != []
    ensures var m := |inputs| - 1;
      Spoilt(inputs) <==> Spoilt(inputs[..m]) || (EmptyOnly(inputs[m]) && HasText(Flat(inputs[..m])))
  {
    var m := |inputs| - 1;
    forall k | 0 <= k < m
      ensures inputs[..m][..k] == inputs[..k] && inputs[..m][k] == inputs[k]
    {
    }
    if Spoilt(inputs[..m]) {
      var k :| 0 <= k < m && EmptyOnly(inputs[..m][k]) && HasText(Flat(inputs[..m][..k]));
      assert inputs[..m][..k] == inputs[..k];
      assert EmptyOnly(inputs[k]) && HasText(Flat(inputs[..k]));
    }
    if Spoilt(inputs) {
      var k :| 0 <= k < |inputs| && EmptyOnly(inputs[k]) && HasText(Flat(inputs[..k]));
      if k < m {
        assert inputs[..m][..k] == inputs[..k];
        assert EmptyOnly(inputs[..m][k]) && HasText(Flat(inputs[..m][..k]));
      }
    }
  }

  lemma {:induction false} ShapeOfInputs(inputs: seq<seq<Obs>>, cap: nat)
    ensures var a := Committed(inputs, cap).shape;
      if Spoilt(inputs) then Freeform(a) else ReflectsShape(a, Flat(inputs))
    decreases |inputs|
  {
    if inputs == [] {
    } else {
      var m := |inputs| - 1;
      var a, b := Committed(inputs[..m], cap).shape, Direct(inputs[m], cap).shape;
      ShapeOfInputs(inputs[..m], cap);
      DirectShape(inputs[m], cap);
      SpoiltStep(inputs);
      if Spoilt(inputs[..m]) {
        MergeFreeform(a, b);
      } else {
        MergeShapeReflects(a, Flat(inputs[..m]), b, inputs[m]);
      }
    }
  }

  /**
   The shape class of a profile committed input by input is that of direct observation,
   unless an "empty only" input was committed after a text and all texts together are uuids
   or all are emails. Then, and only then, the profile says freeform.
   */
  lemma ShapeIsDirectIff(inputs: seq<seq<Obs>>, cap: nat)
    ensures var a, d := Committed(inputs, cap).shape, Direct(Flat(inputs), cap).shape;
      a.(empty := false) == d.(empty := false) <==> !(Spoilt(inputs) && (d.uuid || d.email))
  {
    ShapeOfInputs(inputs, cap);
    DirectShape(Flat(inputs), cap);
    if Spoilt(inputs) {
      SpoiltHasText(inputs);
    }
  }

  lemma {:induction false} SpoiltHasText(inputs: seq<seq<Obs>>)
    requires Spoilt(inputs)
    ensures HasText(Flat(inputs))
    decreases |inputs|
  {
    var m := |inputs| - 1;
    SpoiltStep(inputs);
    if Spoilt(inputs[..m]) { SpoiltHasText(inputs[..m]); }
    var o :| o in Flat(inputs[..m]) && Text(o);
    assert o in Flat(inputs);
  }

  // ---- the shape flags through any history, when no text is empty

  predicate NoEmptySeen(ops: seq<Op>) { forall i :: 0 <= i < |ops| && ops[i].See? ==> !EmptyText(ops[i].obs) }

  predicate ShapeAgrees(c: Field, l: Log) {
    && Exact(c.committed.shape, l.kept) && !HasEmpty(l.kept) && (c.staged.Some? <==> l.pending.Some?)
    && (c.staged.Some? && l.pending.Some? ==> Exact(c.staged.value.shape, l.pending.value) && !HasEmpty(l.pending.value))
  }

  lemma ObserveShape(s: FieldState, xs: seq<Obs>, o: Obs, cap: nat)
    requires Exact(s.shape, xs) && !HasEmpty(xs) && !EmptyText(o)
    ensures Exact(Observe(s, o, cap).shape, xs + [o]) && !HasEmpty(xs + [o])
  {
    if o.Value? {
      SeeShapeExact(s.shape, xs, o);
    } else {
      assert forall p :: p in xs + [o] && p.Value? <==> p in xs && p.Value?;
    }
  }

  lemma MergeShapeExact(a: Shape, xs: seq<Obs>, b: Shape, ys: seq<Obs>)
    requires Exact(a, xs) && Exact(b, ys) && !HasEmpty(xs) && !HasEmpty(ys)
    ensures Exact(MergeShape(a, b), xs + ys) && !HasEmpty(xs + ys)
  {
    MergeShapeReflects(a, xs, b, ys);
  }

  lemma StepShapeAgrees(c: Field, l: Log, op: Op, cap: nat)
    requires ShapeAgrees(c, l) && (op.See? ==> !EmptyText(op.obs))
    ensures ShapeAgrees(Step(c, op, cap), Track(l, op))
  {
    match op
    case Commit => if c.staged.Some? { MergeShapeExact(c.committed.shape, l.kept, c.staged.value.shape, l.pending.value); }
    case See(o) =>
      if c.staged.Some? { ObserveShape(c.staged.value, l.pending.value, o, cap); }
      else { ObserveShape(c.committed, l.kept, o, cap); }
    case _ =>
  }

  lemma {:induction false} HistoryShape(ops: seq<Op>, cap: nat)
    requires NoEmptySeen(ops)
    ensures ShapeAgrees(Played(ops, cap), Logged(ops))
    decreases |ops|
  {
    if ops == [] {
    } else {
      var m := |ops| - 1;
      assert NoEmptySeen(ops[..m]) by { assert forall i :: 0 <= i < m ==> ops[..m][i] == ops[i]; }
      HistoryShape(ops[..m], cap);
      StepShapeAgrees(Played(ops[..m], cap), Logged(ops[..m]), ops[m], cap);
    }
  }

  /** The whole state, shape included: any history against direct observation in any order. */
  lemma ProfileIsDirect(ops: seq<Op>, xs: seq<Obs>, cap: nat)
    requires NoEmptySeen(ops) && multiset(xs) == multiset(Logged(ops).kept)
    ensures Played(ops, cap).committed == Direct(xs, cap)
  {
    CommittedIsDirect(ops, xs, cap);
    HistoryShape(ops, cap);
    DirectShape(xs, cap);
    SameElements(xs, Logged(ops).kept);
  }

  /** A uuid committed first and an empty text second read freeform; observed directly they read as a uuid. */
  lemma EmptyOnlyInputSpoilsShape()
    ensures var id := "00000000-0000-0000-0000-000000000000";
      var committed := MergeShape(MergeShape(NEW_SHAPE, SeeShape(NEW_SHAPE, id)), SeeShape(NEW_SHAPE, ""));
      var direct := SeeShape(SeeShape(NEW_SHAPE, id), "");
      Freeform(committed) && direct.uuid && !direct.free
  {
    var id := "00000000-0000-0000-0000-000000000000";
    assert |id| == 36;
    assert IsUuid(id);
  }

  // ---- the collector

  /** A value of a record as the extractor hands it over. */
  datatype Raw = Nil | Str(s: string, num: Option<real>) | Other(printed: string, num: Option<real>)

  function ObsOf(data: map<string, Raw>, name: string): Obs {
    if name !in data || data[name].Nil? then Null
    else match data[name]
      case Str(s, num) => if s == "" then Null else Value(s, num)
      case Other(printed, num) => Value(printed, num)
  }

  /** A field counts as null exactly if it is missing, nil or an empty string; anything else counts with its text and number. */
  lemma NullIff(data: map<string, Raw>, name: string)
    ensures ObsOf(data, name) == Null <==> name !in data || data[name] == Nil || (data[name].Str? && data[name].s == "")
    ensures ObsOf(data, name) != Null ==>
      ObsOf(data, name) == Value(if data[name].Str? then data[name].s else data[name].printed, data[name].num)
  {
  }

  /** What the records show of one field. */
  function Shown(datas: seq<map<string, Raw>>, name: string): (r: seq<Obs>)
    ensures |r| == |datas| && forall i :: 0 <= i < |r| ==> r[i] == ObsOf(datas[i], name)
  {
    seq(|datas|, i requires 0 <= i < |datas| => ObsOf(datas[i], name))
  }

  /** The records in which the field is missing, nil or an empty string. */
  function Missing(datas: seq<map<string, Raw>>, name: string): set<nat> {
    set i: nat | i < |datas| && (name !in datas[i] || datas[i][name] == Nil || (datas[i][name].Str? && datas[i][name].s == ""))
  }

  lemma MissingStep(datas: seq<map<string, Raw>>, name: string)
    requires datas != []
    ensures var k := |datas| - 1;
      |Missing(datas, name)| == |Missing(datas[..k], name)| + Nulls(ObsOf(datas[k], name))
  {
    var k := |datas| - 1;
    NullIff(datas[k], name);
    var here, before := Missing(datas, name), Missing(datas[..k], name);
    forall i: nat
      ensures i in here <==> i in before || (i == k && ObsOf(datas[k], name) == Null)
    {
      if i < k { assert datas[..k][i] == datas[i]; }
    }
    if ObsOf(datas[k], name) == Null {
      assert here == before + {k};
    } else {
      assert here == before;
    }
  }

  /** Observed directly, a field counts every record, and as null those in which it is missing, nil or an empty string. */
  lemma {:induction false} NullCountIsMissing(datas: seq<map<string, Raw>>, name: string, cap: nat)
    ensures Direct(Shown(datas, name), cap).count == |datas|
    ensures Direct(Shown(datas, name), cap).nullCount == |Missing(datas, name)|
    decreases |datas|
  {
    if datas == [] {
    } else {
      var k := |datas| - 1;
      NullCountIsMissing(datas[..k], name, cap);
      assert Shown(datas, name)[..k] == Shown(datas[..k], name);
      MissingStep(datas, name);
    }
  }

  lemma MergeWithinCap(s: FieldState, o: FieldState, cap: nat)
    requires WithinCap(s, cap) && WithinCap(o, cap)
    ensures WithinCap(Merge(s, o, cap), cap)
  {
  }

  lemma ObserveWithinCap(s: FieldState, o: Obs, cap: nat)
    requires WithinCap(s, cap)
    ensures WithinCap(Observe(s, o, cap), cap)
  {
    if o.Value? && !s.capped {
      assert |s.distinct| < cap && o.text !in s.distinct ==> |s.distinct[o.text := 1]| == |s.distinct| + 1;
      assert o.text in s.distinct ==> s.distinct[o.text := s.distinct[o.text] + 1].Keys == s.distinct.Keys;
      assert o.text in s.distinct ==> |s.distinct[o.text := s.distinct[o.text] + 1]| == |s.distinct|;
    }
  }

  predicate States(m: map<string, FieldState>, fields: set<string>, cap: nat) {
    m.Keys == fields && forall f :: f in m ==> WithinCap(m[f], cap)
  }

  /** All fields are merged but those still to do. */
  predicate MergedBut(target: map<string, FieldState>, pending: map<string, FieldState>, fields: set<string>, todo: set<string>,
                      r: map<string, FieldState>, cap: nat)
    requires target.Keys == pending.Keys == fields
  {
    States(r, fields, cap) && forall f :: f in fields ==> r[f] == if f in todo then target[f] else Merge(target[f], pending[f], cap)
  }

  lemma MergeOne(target: map<string, FieldState>, pending: map<string, FieldState>, fields: set<string>, todo: set<string>,
                 r: map<string, FieldState>, name: string, cap: nat)
    requires States(target, fields, cap) && States(pending, fields, cap) && MergedBut(target, pending, fields, todo, r, cap)
    requires name in todo && name in fields
    ensures MergedBut(target, pending, fields, todo - {name}, r[name := Merge(r[name], pending[name], cap)], cap)
  {
    MergeWithinCap(r[name], pending[name], cap);
    var q := r[name := Merge(r[name], pending[name], cap)];
    forall f | f in fields
      ensures WithinCap(q[f], cap) && q[f] == if f in todo - {name} then target[f] else Merge(target[f], pending[f], cap)
    {
    }
  }

  class ValueCollector {
    const fields: set<string>
    const maxDistinct: nat
    var committed: map<string, FieldState>
    var staged: Option<map<string, FieldState>>

    ghost predicate Valid() reads this {
      States(committed, fields, maxDistinct) && (staged.Some? ==> States(staged.value, fields, maxDistinct))
    }

    /** The collector's view of one field. */
    ghost function At(f: string): Field
      requires Valid() && f in fields
      reads this
    {
      Field(committed[f], if staged.Some? then Some(staged.value[f]) else None)
    }

    constructor (fields: set<string>, maxDistinct: nat)
      ensures this.fields == fields && this.maxDistinct == maxDistinct
      ensures Valid() && forall f :: f in fields ==> At(f) == Played([], maxDistinct)
    {
      this.fields, this.maxDistinct := fields, maxDistinct;
      committed := map f | f in fields :: NEW_STATE;
      staged := None;
    }

    method BeginInput()
      requires Valid()
      modifies this
      ensures Valid() && forall f :: f in fields ==> At(f) == Step(old(At(f)), Begin, maxDistinct)
    {
      staged := Some(map f | f in fields :: NEW_STATE);
    }

    method BeginInputIfNeeded()
      requires Valid()
      modifies this
      ensures Valid() && forall f :: f in fields ==> At(f) == Step(old(At(f)), BeginIfNeeded, maxDistinct)
    {
      if staged.None? {
        staged := Some(map f | f in fields :: NEW_STATE);
      }
    }

    method DiscardInput()
      requires Valid()
      modifies this
      ensures Valid() && forall f :: f in fields ==> At(f) == Step(old(At(f)), Discard, maxDistinct)
    {
      staged := None;
    }

    /** CommitInput: merges field by field, in any order. */
    method CommitInput()
      requires Valid()
      modifies this
      ensures Valid() && forall f :: f in fields ==> At(f) == Step(old(At(f)), Commit, maxDistinct)
    {
      if staged.None? { return; }
      committed := MergeInto(committed, staged.value);
      staged := None;
    }

    method MergeInto(target: map<string, FieldState>, pending: map<string, FieldState>) returns (r: map<string, FieldState>)
      requires States(target, fields, maxDistinct) && States(pending, fields, maxDistinct)
      ensures States(r, fields, maxDistinct) && forall f :: f in fields ==> r[f] == Merge(target[f], pending[f], maxDistinct)
    {
      r := target;
      var todo := fields;
      while todo != {}
        invariant todo <= fields && MergedBut(target, pending, fields, todo, r, maxDistinct)
        decreases |todo|
      {
        var name :| name in todo;
        var merged := MergeFrom(r[name], pending[name], maxDistinct);
        MergeOne(target, pending, fields, todo, r, name, maxDistinct);
        r := r[name := merged];
        todo := todo - {name};
      }
    }

    /** ObserveData: one record into the open input, or directly, field by field in any order. */
    method ObserveData(data: map<string, Raw>)
      requires Valid()
      modifies this
      ensures Valid() && forall f :: f in fields ==> At(f) == Step(old(At(f)), See(ObsOf(data, f)), maxDistinct)
    {
      if staged.Some? {
        var target := ObserveInto(staged.value, data);
        staged := Some(target);
      } else {
        committed := ObserveInto(committed, data);
      }
    }

    method ObserveInto(target: map<string, FieldState>, data: map<string, Raw>) returns (r: map<string, FieldState>)
      requires States(target, fields, maxDistinct)
      ensures States(r, fields, maxDistinct) && forall f :: f in fields ==> r[f] == Observe(target[f], ObsOf(data, f), maxDistinct)
    {
      r := target;
      var todo := fields;
      while todo != {}
        invariant todo <= fields && States(r, fields, maxDistinct)
        invariant forall f :: f in fields ==> r[f] == if f in todo then target[f] else Observe(target[f], ObsOf(data, f), maxDistinct)
        decreases |todo|
      {
        var name :| name in todo;
        ObserveWithinCap(r[name], ObsOf(data, name), maxDistinct);
        r := r[name := Observe(r[name], ObsOf(data, name), maxDistinct)];
        todo := todo - {name};
      }
    }
  }
}
