/**
 The two extraction routes of `internal/extract/extractor.go`: one collects every record and
 then enriches them, the other hands each record to a sink as it is made. Selector
 evaluation, record building, filters, the output validator and the envelope are given
 functions; the envelope's timestamp is not part of a row.
 */
module SinkRoute {
  import opened Wrappers

  /** `selectors` holds the nodes of each match selector, or its evaluation error. */
  datatype Config<!N, !R, !E> = Config(
    collides: bool, selectors: seq<Result<seq<N>>>, build: N -> Result<R>, uniform: R -> R,
    passes: R -> bool, validates: R -> bool, enrich: (R, nat) -> Result<E>)

  datatype Row<R> = Skip | Keep(record: R) | Bad

  /** An emitted row and the number written into it. */
  datatype Out<E> = Out(row: E, num: nat)

  function RowOf<N, R, E>(c: Config<N, R, E>, n: N): Row<R> {
    match c.build(n)
    case Err => Bad
    case Ok(raw) =>
      var r := c.uniform(raw);
      if !c.passes(r) then Skip else if !c.validates(r) then Bad else Keep(r)
  }

  // ---- what the routes must come to

  /** The nodes of all selectors in order, up to one that does not evaluate. */
  function Nodes<N>(selectors: seq<Result<seq<N>>>): seq<N> {
    if selectors == [] then []
    else if selectors[|selectors| - 1].Ok? && AllEvaluate(selectors[..|selectors| - 1])
      then Nodes(selectors[..|selectors| - 1]) + selectors[|selectors| - 1].value
    else Nodes(selectors[..|selectors| - 1])
  }

  predicate AllEvaluate<N>(selectors: seq<Result<seq<N>>>) { forall i :: 0 <= i < |selectors| ==> selectors[i].Ok? }

  predicate Fails<N, R, E>(c: Config<N, R, E>, n: N, num: nat) {
    var r := RowOf(c, n);
    r.Bad? || (r.Keep? && c.enrich(r.record, num).Err?)
  }

  /** The rows of the nodes that give one, each with its position among all nodes. */
  function Rows<N, R, E>(c: Config<N, R, E>, ns: seq<N>): seq<Out<E>> {
    if ns == [] then []
    else
      var k := |ns| - 1;
      var r := RowOf(c, ns[k]);
      if r.Keep? && c.enrich(r.record, |ns|).Ok? then Rows(c, ns[..k]) + [Out(c.enrich(r.record, |ns|).value, |ns|)]
      else Rows(c, ns[..k])
  }

  /** The extraction succeeds: no name collision, every selector evaluates, every node gives a row or is filtered. */
  predicate Succeeds<N, R, E>(c: Config<N, R, E>) {
    && !c.collides && AllEvaluate(c.selectors)
    && NoneFails(c, Nodes(c.selectors))
  }

  predicate NoneFails<N, R, E>(c: Config<N, R, E>, ns: seq<N>) {
    forall k :: 0 <= k < |ns| ==> !Fails(c, ns[k], k + 1)
  }

  function Counts<N>(selectors: seq<Result<seq<N>>>): map<nat, nat> {
    map i: nat | i < |selectors| && selectors[i].Ok? :: |selectors[i].value|
  }

  /** Row numbers are positions before filtering, and strictly increase. */
  lemma {:induction false} NumbersIncrease<N, R, E>(c: Config<N, R, E>, ns: seq<N>)
    ensures forall i :: 0 <= i < |Rows(c, ns)| ==> 1 <= Rows(c, ns)[i].num <= |ns|
    ensures forall i, j :: 0 <= i < j < |Rows(c, ns)| ==> Rows(c, ns)[i].num < Rows(c, ns)[j].num
    ensures forall i :: 0 <= i < |Rows(c, ns)| ==>
      var o := Rows(c, ns)[i]; RowOf(c, ns[o.num - 1]).Keep? && c.enrich(RowOf(c, ns[o.num - 1]).record, o.num) == Ok(o.row)
    decreases |ns|
  {
    if ns == [] {
    } else {
      NumbersIncrease(c, ns[..|ns| - 1]);
    }
  }

  /**
   The rows in terms of the given functions: node `k` has one, numbered `k + 1`, exactly if its
   record is built, passes the filters and the validator in its uniform form, and is enriched.
   */
  lemma {:induction false} RowsAre<N, R, E>(c: Config<N, R, E>, ns: seq<N>, k: nat, e: E)
    requires k < |ns|
    ensures Out(e, k + 1) in Rows(c, ns) <==>
      && c.build(ns[k]).Ok? && c.passes(c.uniform(c.build(ns[k]).value)) && c.validates(c.uniform(c.build(ns[k]).value))
      && c.enrich(c.uniform(c.build(ns[k]).value), k + 1) == Ok(e)
    decreases |ns|
  {
    var m := |ns| - 1;
    var r := RowOf(c, ns[m]);
    NumbersIncrease(c, ns[..m]);
    if r.Keep? && c.enrich(r.record, m + 1).Ok? {
      assert Rows(c, ns) == Rows(c, ns[..m]) + [Out(c.enrich(r.record, m + 1).value, m + 1)];
    } else {
      assert Rows(c, ns) == Rows(c, ns[..m]);
    }
    if k < m {
      RowsAre(c, ns[..m], k, e);
    }
  }

  /** What stops the extraction, in the same terms. */
  lemma FailsIff<N, R, E>(c: Config<N, R, E>, n: N, num: nat)
    ensures Fails(c, n, num) <==>
      || c.build(n).Err?
      || (c.passes(c.uniform(c.build(n).value)) && (!c.validates(c.uniform(c.build(n).value)) || c.enrich(c.uniform(c.build(n).value), num).Err?))
  {
  }

  /** Rows of fewer nodes are a prefix of the rows of all. */
  lemma {:induction false} RowsPrefix<N, R, E>(c: Config<N, R, E>, ns: seq<N>, k: nat)
    requires k <= |ns|
    ensures Rows(c, ns[..k]) <= Rows(c, ns)
    decreases |ns|
  {
    if k == |ns| {
      assert ns[..k] == ns;
    } else {
      RowsPrefix(c, ns[..|ns| - 1], k);
      assert ns[..|ns| - 1][..k] == ns[..k];
    }
  }

  lemma RowsStep<N, R, E>(c: Config<N, R, E>, ns: seq<N>, k: nat)
    requires k < |ns|
    ensures var r := RowOf(c, ns[k]);
      Rows(c, ns[..k + 1]) == if r.Keep? && c.enrich(r.record, k + 1).Ok? then Rows(c, ns[..k]) + [Out(c.enrich(r.record, k + 1).value, k + 1)] else Rows(c, ns[..k])
  {
    assert ns[..k + 1][..k] == ns[..k];
  }

  /** The nodes up to a selector come first among all nodes. */
  lemma {:induction false} NodesPrefix<N>(selectors: seq<Result<seq<N>>>, i: nat)
    requires i <= |selectors| && AllEvaluate(selectors[..i])
    ensures Nodes(selectors[..i]) <= Nodes(selectors)
    ensures i < |selectors| && selectors[i].Ok? ==> Nodes(selectors[..i]) + selectors[i].value <= Nodes(selectors)
    decreases |selectors|
  {
    var m := |selectors| - 1;
    if i == |selectors| {
      assert selectors[..i] == selectors;
    } else {
      assert selectors[..m][..i] == selectors[..i];
      NodesPrefix(selectors[..m], i);
    }
  }

  // ---- the sink

  /** A sink that may refuse a record, and a context that may be cancelled before any node. */
  class RecordSink<!E> {
    var received: seq<Out<E>>
    const refuses: nat -> bool

    constructor (refuses: nat -> bool)
      ensures received == [] && this.refuses == refuses
    {
      received, this.refuses := [], refuses;
    }

    method OnRecord(o: Out<E>) returns (ok: bool)
      modifies this
      ensures ok <==> !refuses(|old(received)|)
      ensures received == if ok then old(received) + [o] else old(received)
    {
      ok := !refuses(|received|);
      if ok { received := received + [o]; }
    }
  }

  /** The sink takes everything and nothing is cancelled. */
  ghost predicate Unhindered<E>(sink: RecordSink<E>, cancelled: nat -> bool) {
    (forall k :: !sink.refuses(k)) && forall k :: !cancelled(k)
  }

  /** Nothing has failed up to node `k`, and the rows so far are those of the nodes before it. */
  ghost predicate Through<N, R, E>(c: Config<N, R, E>, ns: seq<N>, k: nat, rows: seq<Out<E>>) {
    k <= |ns| && rows == Rows(c, ns[..k]) && forall i :: 0 <= i < k ==> !Fails(c, ns[i], i + 1)
  }

  lemma ThroughPrefix<N, R, E>(c: Config<N, R, E>, ns: seq<N>, k: nat, rows: seq<Out<E>>)
    requires Through(c, ns, k, rows)
    ensures rows <= Rows(c, ns)
  {
    RowsPrefix(c, ns, k);
  }

  lemma ThroughStep<N, R, E>(c: Config<N, R, E>, ns: seq<N>, k: nat, rows: seq<Out<E>>)
    requires Through(c, ns, k, rows) && k < |ns| && !Fails(c, ns[k], k + 1)
    ensures var r := RowOf(c, ns[k]);
      Through(c, ns, k + 1, if r.Keep? then rows + [Out(c.enrich(r.record, k + 1).value, k + 1)] else rows)
  {
    RowsStep(c, ns, k);
  }

  /** The sink route at one node. */
  method SinkNode<N, R, E>(c: Config<N, R, E>, sink: RecordSink<E>, node: N, recordNum: nat, cancelled: nat -> bool, ghost ns: seq<N>)
    returns (ok: bool)
    requires Through(c, ns, recordNum, sink.received) && recordNum < |ns| && node == ns[recordNum]
    modifies sink
    ensures if ok then Through(c, ns, recordNum + 1, sink.received) else Through(c, ns, recordNum, sink.received)
    ensures !ok && Unhindered(sink, cancelled) ==> Fails(c, ns[recordNum], recordNum + 1)
  {
    if cancelled(recordNum) { return false; }
    var built := c.build(node);
    if built.Err? { return false; }
    var record := c.uniform(built.value);
    if !c.passes(record) {
      ThroughStep(c, ns, recordNum, sink.received);
      return true;
    }
    if !c.validates(record) { return false; }
    var e := c.enrich(record, recordNum + 1);
    if e.Err? { return false; }
    ThroughStep(c, ns, recordNum, sink.received);
    ok := sink.OnRecord(Out(e.value, recordNum + 1));
  }

  /** The sink route over the nodes of one selector. */
  method SinkNodes<N, R, E>(c: Config<N, R, E>, sink: RecordSink<E>, nodes: seq<N>, recordNum: nat, cancelled: nat -> bool, ghost ns: seq<N>)
    returns (ok: bool, ghost k: nat)
    requires Through(c, ns, recordNum, sink.received) && recordNum + |nodes| <= |ns| && nodes == ns[recordNum..recordNum + |nodes|]
    modifies sink
    ensures Through(c, ns, k, sink.received) && (ok ==> k == recordNum + |nodes|)
    ensures !ok && Unhindered(sink, cancelled) ==> k < |ns| && Fails(c, ns[k], k + 1)
  {
    k := recordNum;
    for j := 0 to |nodes|
      invariant k == recordNum + j && Through(c, ns, k, sink.received)
    {
      ok := SinkNode(c, sink, nodes[j], recordNum + j, cancelled, ns);
      if !ok { return; }
      k := k + 1;
    }
    ok := true;
  }

  lemma CountsStep<N>(selectors: seq<Result<seq<N>>>, i: nat, counts: map<nat, nat>)
    requires i < |selectors| && selectors[i].Ok? && counts == Counts(selectors[..i])
    ensures counts[i := |selectors[i].value|] == Counts(selectors[..i + 1])
  {
  }

  lemma NodesStep<N>(selectors: seq<Result<seq<N>>>, i: nat)
    requires i < |selectors| && AllEvaluate(selectors[..i]) && selectors[i].Ok?
    ensures Nodes(selectors[..i + 1]) == Nodes(selectors[..i]) + selectors[i].value
  {
    assert selectors[..i + 1][..i] == selectors[..i];
  }

  /** Where the nodes of a selector lie among all nodes. */
  lemma NodesHere<N>(selectors: seq<Result<seq<N>>>, i: nat)
    requires i < |selectors| && AllEvaluate(selectors[..i]) && selectors[i].Ok?
    ensures var n, ns := |Nodes(selectors[..i])|, Nodes(selectors);
      && n + |selectors[i].value| <= |ns| && selectors[i].value == ns[n..n + |selectors[i].value|]
      && ns[..n] == Nodes(selectors[..i]) && Nodes(selectors[..i + 1]) == ns[..n + |selectors[i].value|]
  {
    NodesPrefix(selectors, i);
    NodesStep(selectors, i);
  }

  /** The selectors before `i` are done. */
  ghost predicate Done<N, R, E>(c: Config<N, R, E>, i: nat, recordNum: nat, counts: map<nat, nat>) {
    && i <= |c.selectors| && AllEvaluate(c.selectors[..i]) && recordNum == |Nodes(c.selectors[..i])|
    && Nodes(c.selectors[..i]) <= Nodes(c.selectors) && counts == Counts(c.selectors[..i])
  }

  lemma DoneStep<N, R, E>(c: Config<N, R, E>, i: nat, recordNum: nat, counts: map<nat, nat>)
    requires i < |c.selectors| && Done(c, i, recordNum, counts) && c.selectors[i].Ok?
    ensures var nodes, ns := c.selectors[i].value, Nodes(c.selectors);
      && recordNum + |nodes| <= |ns| && nodes == ns[recordNum..recordNum + |nodes|]
      && Done(c, i + 1, recordNum + |nodes|, counts[i := |nodes|])
  {
    NodesHere(c.selectors, i);
    CountsStep(c.selectors, i, counts);
    assert AllEvaluate(c.selectors[..i + 1]);
  }

  lemma AllDone<N, R, E>(c: Config<N, R, E>, recordNum: nat, counts: map<nat, nat>, rows: seq<Out<E>>)
    requires Done(c, |c.selectors|, recordNum, counts) && Through(c, Nodes(c.selectors), recordNum, rows) && !c.collides
    ensures Succeeds(c) && rows == Rows(c, Nodes(c.selectors)) && counts == Counts(c.selectors)
  {
    assert c.selectors[..|c.selectors|] == c.selectors;
    assert Nodes(c.selectors)[..recordNum] == Nodes(c.selectors);
  }

  /** Why the sink route stopped early: a node fails, or the sink or the context stopped it. */
  lemma StoppedAt<N, R, E>(c: Config<N, R, E>, k: nat)
    requires k < |Nodes(c.selectors)| && Fails(c, Nodes(c.selectors)[k], k + 1)
    ensures !Succeeds(c)
  {
  }

  /** The sink route over one selector. */
  method SinkSelector<N, R, E>(c: Config<N, R, E>, sink: RecordSink<E>, i: nat, recordNum: nat, counts: map<nat, nat>, cancelled: nat -> bool)
    returns (ok: bool, num: nat, more: map<nat, nat>)
    requires i < |c.selectors| && Done(c, i, recordNum, counts) && Through(c, Nodes(c.selectors), recordNum, sink.received)
    modifies sink
    ensures sink.received <= Rows(c, Nodes(c.selectors))
    ensures ok ==> Done(c, i + 1, num, more) && Through(c, Nodes(c.selectors), num, sink.received)
    ensures !ok && Unhindered(sink, cancelled) ==> !Succeeds(c)
  {
    ghost var ns := Nodes(c.selectors);
    ThroughPrefix(c, ns, recordNum, sink.received);
    if c.selectors[i].Err? { return false, recordNum, counts; }
    var nodes := c.selectors[i].value;
    DoneStep(c, i, recordNum, counts);
    ghost var k;
    ok, k := SinkNodes(c, sink, nodes, recordNum, cancelled, ns);
    ThroughPrefix(c, ns, k, sink.received);
    if !ok && k < |ns| && Fails(c, ns[k], k + 1) { StoppedAt(c, k); }
    num, more := recordNum + |nodes|, counts[i := |nodes|];
  }

  /** extractRecordsWithCountsAndRecordNumsToSink. */
  method ToSink<N, R, E>(c: Config<N, R, E>, sink: RecordSink<E>, cancelled: nat -> bool)
    returns (ok: bool, counts: map<nat, nat>, emitted: nat)
    requires sink.received == []
    modifies sink
    ensures sink.received <= Rows(c, Nodes(c.selectors)) && emitted == |sink.received|
    ensures ok ==> Succeeds(c) && sink.received == Rows(c, Nodes(c.selectors)) && counts == Counts(c.selectors)
    ensures Unhindered(sink, cancelled) ==> (ok <==> Succeeds(c))
  {
    counts := map[];
    if c.collides { return false, map[], 0; }
    var recordNum: nat := 0;
    for i := 0 to |c.selectors|
      invariant Done(c, i, recordNum, counts) && Through(c, Nodes(c.selectors), recordNum, sink.received)
    {
      ok, recordNum, counts := SinkSelector(c, sink, i, recordNum, counts, cancelled);
      if !ok { return false, map[], |sink.received|; }
    }
    AllDone(c, recordNum, counts, sink.received);
    return true, counts, |sink.received|;
  }

  // ---- the buffered route

  /** Records kept by the first pass, before enrichment. */
  datatype Kept<R> = Kept(record: R, num: nat)

  function KeptOf<N, R, E>(c: Config<N, R, E>, ns: seq<N>): seq<Kept<R>> {
    if ns == [] then []
    else
      var k := |ns| - 1;
      var r := RowOf(c, ns[k]);
      if r.Keep? then KeptOf(c, ns[..k]) + [Kept(r.record, |ns|)] else KeptOf(c, ns[..k])
  }

  /** The first pass: no node before `k` is bad. */
  ghost predicate Collected<N, R, E>(c: Config<N, R, E>, ns: seq<N>, k: nat, kept: seq<Kept<R>>) {
    k <= |ns| && kept == KeptOf(c, ns[..k]) && forall i :: 0 <= i < k ==> !RowOf(c, ns[i]).Bad?
  }

  lemma CollectStep<N, R, E>(c: Config<N, R, E>, ns: seq<N>, k: nat, kept: seq<Kept<R>>)
    requires Collected(c, ns, k, kept) && k < |ns| && !RowOf(c, ns[k]).Bad?
    ensures var r := RowOf(c, ns[k]); Collected(c, ns, k + 1, if r.Keep? then kept + [Kept(r.record, k + 1)] else kept)
  {
    assert ns[..k + 1][..k] == ns[..k];
  }

  method CollectNodes<N, R, E>(c: Config<N, R, E>, nodes: seq<N>, recordNum: nat, was: seq<Kept<R>>, ghost ns: seq<N>)
    returns (ok: bool, kept: seq<Kept<R>>)
    requires Collected(c, ns, recordNum, was) && recordNum + |nodes| <= |ns| && nodes == ns[recordNum..recordNum + |nodes|]
    ensures ok ==> Collected(c, ns, recordNum + |nodes|, kept)
    ensures !ok ==> exists k :: 0 <= k < |ns| && RowOf(c, ns[k]).Bad?
  {
    kept := was;
    for j := 0 to |nodes|
      invariant Collected(c, ns, recordNum + j, kept)
    {
      assert nodes[j] == ns[recordNum + j];
      var built := c.build(nodes[j]);
      if built.Err? { return false, kept; }
      var record := c.uniform(built.value);
      if c.passes(record) {
        if !c.validates(record) { return false, kept; }
        CollectStep(c, ns, recordNum + j, kept);
        kept := kept + [Kept(record, recordNum + j + 1)];
      } else {
        CollectStep(c, ns, recordNum + j, kept);
      }
    }
    ok := true;
  }

  /** Enriched, the kept records are the rows; an enrichment fails exactly if a node does. */
  ghost predicate Enriches<R, E>(enrich: (R, nat) -> Result<E>, kept: seq<Kept<R>>, n: nat, rows: seq<Out<E>>) {
    && n <= |kept| && |rows| == n
    && forall i :: 0 <= i < n ==> enrich(kept[i].record, kept[i].num) == Ok(rows[i].row) && rows[i].num == kept[i].num
  }

  lemma {:induction false} KeptEnriched<N, R, E>(c: Config<N, R, E>, ns: seq<N>, rows: seq<Out<E>>)
    requires Enriches(c.enrich, KeptOf(c, ns), |KeptOf(c, ns)|, rows) && forall i :: 0 <= i < |ns| ==> !RowOf(c, ns[i]).Bad?
    ensures rows == Rows(c, ns) && NoneFails(c, ns)
    decreases |ns|
  {
    if ns == [] {
    } else {
      var k := |ns| - 1;
      var r, kept := RowOf(c, ns[k]), KeptOf(c, ns[..k]);
      if r.Keep? {
        assert KeptOf(c, ns)[|kept|] == Kept(r.record, |ns|);
        assert forall i :: 0 <= i < |kept| ==> KeptOf(c, ns)[i] == kept[i];
        KeptEnriched(c, ns[..k], rows[..|kept|]);
        assert rows == rows[..|kept|] + [rows[|kept|]];
      } else {
        KeptEnriched(c, ns[..k], rows);
      }
      assert forall i :: 0 <= i < k ==> ns[..k][i] == ns[i];
    }
  }

  lemma {:induction false} KeptFails<N, R, E>(c: Config<N, R, E>, ns: seq<N>, i: nat)
    requires i < |KeptOf(c, ns)| && c.enrich(KeptOf(c, ns)[i].record, KeptOf(c, ns)[i].num) == Err
    ensures !NoneFails(c, ns)
    decreases |ns|
  {
    var k := |ns| - 1;
    if i < |KeptOf(c, ns[..k])| {
      KeptFails(c, ns[..k], i);
      var j :| 0 <= j < k && Fails(c, ns[..k][j], j + 1);
      assert Fails(c, ns[j], j + 1);
    } else {
      assert Fails(c, ns[k], k + 1);
    }
  }

  /** enrichRecordsWithRecordNums. */
  method EnrichAll<R, E>(enrich: (R, nat) -> Result<E>, kept: seq<Kept<R>>) returns (ok: bool, rows: seq<Out<E>>)
    ensures ok ==> Enriches(enrich, kept, |kept|, rows)
    ensures !ok ==> exists i :: 0 <= i < |kept| && enrich(kept[i].record, kept[i].num) == Err
  {
    rows := [];
    for i := 0 to |kept|
      invariant Enriches(enrich, kept, i, rows)
    {
      var e := enrich(kept[i].record, kept[i].num);
      if e.Err? {
        assert enrich(kept[i].record, kept[i].num) == Err;
        return false, rows;
      }
      rows := rows + [Out(e.value, kept[i].num)];
    }
    ok := true;
  }

  /** extractRecordsWithCountsAndRecordNums followed by the enrichment of all records. */
  method Buffered<N, R, E>(c: Config<N, R, E>) returns (ok: bool, rows: seq<Out<E>>, counts: map<nat, nat>)
    ensures ok <==> Succeeds(c)
    ensures ok ==> rows == Rows(c, Nodes(c.selectors)) && counts == Counts(c.selectors)
  {
    counts, rows := map[], [];
    if c.collides { return false, rows, counts; }
    var recordNum: nat, kept := 0, [];
    ghost var ns := Nodes(c.selectors);
    for i := 0 to |c.selectors|
      invariant Done(c, i, recordNum, counts) && Collected(c, ns, recordNum, kept)
    {
      if c.selectors[i].Err? { return false, rows, counts; }
      DoneStep(c, i, recordNum, counts);
      counts := counts[i := |c.selectors[i].value|];
      ok, kept := CollectNodes(c, c.selectors[i].value, recordNum, kept, ns);
      if !ok {
        ghost var k :| 0 <= k < |ns| && RowOf(c, ns[k]).Bad?;
        assert Fails(c, ns[k], k + 1);
        return false, rows, counts;
      }
      recordNum := recordNum + |c.selectors[i].value|;
    }
    assert c.selectors[..|c.selectors|] == c.selectors && ns[..recordNum] == ns;
    ok, rows := EnrichAll(c.enrich, kept);
    if ok {
      KeptEnriched(c, ns, rows);
    } else {
      ghost var i :| 0 <= i < |kept| && c.enrich(kept[i].record, kept[i].num) == Err;
      KeptFails(c, ns, i);
    }
  }

  /** The sink route refines the buffered one. */
  method RoutesAgree<N, R, E>(c: Config<N, R, E>, sink: RecordSink<E>, cancelled: nat -> bool)
    returns (buffered: bool, sunk: bool, rows: seq<Out<E>>, counts: map<nat, nat>, sinkCounts: map<nat, nat>)
    requires sink.received == []
    modifies sink
    ensures sunk ==> buffered && sink.received == rows && sinkCounts == counts
    ensures Unhindered(sink, cancelled) ==> (buffered <==> sunk)
    ensures buffered ==> sink.received <= rows
    ensures forall i, j :: 0 <= i < j < |sink.received| ==> sink.received[i].num < sink.received[j].num
  {
    buffered, rows, counts := Buffered(c);
    var emitted;
    sunk, sinkCounts, emitted := ToSink(c, sink, cancelled);
    NumbersIncrease(c, Nodes(c.selectors));
  }
}
