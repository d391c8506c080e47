/**
 Record-scoped signature scoring on its two routes: the whole-document loop of
 `internal/extract/format.go` and the streaming loop of `internal/extract/extractor.go`.
 Scoring a record document is a given function that may fail.
 */
module RecordSignature {
  import opened Wrappers

  /** matchesSignature's answer for one record document. */
  datatype Score = Score(matches: bool, confidence: real)

  datatype Status = Unknown | Matched | Mismatched

  datatype Cause = NoError | SignatureMismatch(num: int, confidence: real) | ScoreError | OtherError

  datatype Outcome = Outcome(status: Status, confidence: real, cause: Cause)

  /** One record of the stream: its number, its document if it parses, and whether extraction and the sink take it. */
  datatype Item<D> = Item(num: int, doc: Result<D>, emits: bool)

  // ---- what both loops must come to

  predicate Passes<D>(score: D -> Result<Score>, d: D) { score(d).Ok? && score(d).value.matches }

  predicate AllPass<D(==)>(score: D -> Result<Score>, docs: seq<D>, n: nat)
    requires n <= |docs|
  {
    forall i :: 0 <= i < n ==> Passes(score, docs[i])
  }

  /** The least confidence of the first `n` records, each of which has a score; 0 for none. */
  predicate Lowest<D>(score: D -> Result<Score>, docs: seq<D>, n: nat, c: real)
    requires n <= |docs|
  {
    if n == 0 then c == 0.0
    else
      && (forall i :: 0 <= i < n ==> score(docs[i]).Ok? && c <= score(docs[i]).value.confidence)
      && (exists i :: 0 <= i < n && score(docs[i]).value.confidence == c)
  }

  /** The record at `k` stops the loop: those before it pass and it does not. */
  predicate StopsAt<D(==)>(score: D -> Result<Score>, docs: seq<D>, k: nat) {
    k < |docs| && AllPass(score, docs, k) && !Passes(score, docs[k])
  }

  /** The verdict on a list of records, without reference to a loop. */
  predicate Judges<D(==)>(score: D -> Result<Score>, docs: seq<D>, o: Outcome) {
    match o.cause
    case NoError =>
      && AllPass(score, docs, |docs|) && o.status == (if docs == [] then Unknown else Matched) && Lowest(score, docs, |docs|, o.confidence)
    case SignatureMismatch(num, c) =>
      && 1 <= num <= |docs| && StopsAt(score, docs, num - 1) && score(docs[num - 1]) == Ok(Score(false, c))
      && o.status == Mismatched && Lowest(score, docs, num, o.confidence)
    case ScoreError => o.status == Unknown && exists k :: 0 <= k < |docs| && StopsAt(score, docs, k) && score(docs[k]).Err?
    case OtherError => false
  }

  lemma LowestIsUnique<D>(score: D -> Result<Score>, docs: seq<D>, n: nat, c: real, d: real)
    requires n <= |docs| && Lowest(score, docs, n, c) && Lowest(score, docs, n, d)
    ensures c == d
  {
  }

  lemma StopIsUnique<D>(score: D -> Result<Score>, docs: seq<D>, k: nat, j: nat)
    requires StopsAt(score, docs, k) && StopsAt(score, docs, j)
    ensures k == j
  {
  }

  /** Two verdicts on the same records agree in everything but the confidence reported with a scoring error. */
  lemma VerdictIsUnique<D>(score: D -> Result<Score>, docs: seq<D>, o: Outcome, p: Outcome)
    requires Judges(score, docs, o) && Judges(score, docs, p)
    ensures o.status == p.status && o.cause == p.cause
    ensures o.cause != ScoreError ==> o == p
  {
    ghost var ko := StopOf(score, docs, o);
    ghost var kp := StopOf(score, docs, p);
    if ko < |docs| && kp < |docs| { StopIsUnique(score, docs, ko, kp); }
    if o.cause == NoError && p.cause == NoError { LowestIsUnique(score, docs, |docs|, o.confidence, p.confidence); }
    if o.cause.SignatureMismatch? && p.cause.SignatureMismatch? { LowestIsUnique(score, docs, o.cause.num, o.confidence, p.confidence); }
  }

  /** Where the verdict's loop stopped, or the end. */
  lemma StopOf<D>(score: D -> Result<Score>, docs: seq<D>, o: Outcome) returns (k: nat)
    requires Judges(score, docs, o)
    ensures if o.cause == NoError then k == |docs| && AllPass(score, docs, k) else StopsAt(score, docs, k)
    ensures o.cause.SignatureMismatch? ==> k == o.cause.num - 1
    ensures o.cause == ScoreError ==> score(docs[k]).Err?
  {
    match o.cause
    case NoError => k := |docs|;
    case SignatureMismatch(num, _) => k := num - 1;
    case ScoreError => k :| 0 <= k < |docs| && StopsAt(score, docs, k) && score(docs[k]).Err?;
  }

  lemma LowestStep<D>(score: D -> Result<Score>, docs: seq<D>, n: nat, c: real)
    requires n < |docs| && Lowest(score, docs, n, c) && score(docs[n]).Ok? && (n > 0 ==> AllScored(score, docs, n))
    ensures var d := score(docs[n]).value.confidence;
      Lowest(score, docs, n + 1, if n == 0 || d < c then d else c)
  {
    var d := score(docs[n]).value.confidence;
    if n > 0 && !(d < c) {
      var i :| 0 <= i < n && score(docs[i]).value.confidence == c;
      assert 0 <= i < n + 1;
    }
  }

  predicate AllScored<D>(score: D -> Result<Score>, docs: seq<D>, n: nat)
    requires n <= |docs|
  {
    forall i :: 0 <= i < n ==> score(docs[i]).Ok?
  }

  // ---- the two loops

  /** matchesSignaturePerRecord over the documents of the selected nodes. */
  method WholeDocument<D(==)>(score: D -> Result<Score>, docs: seq<D>) returns (o: Outcome)
    ensures Judges(score, docs, o)
    ensures o.cause == ScoreError ==> o.confidence == 0.0
  {
    var minConfidence := 0.0;
    for i := 0 to |docs|
      invariant AllPass(score, docs, i) && Lowest(score, docs, i, minConfidence)
    {
      var r := score(docs[i]);
      if r == Err {
        assert StopsAt(score, docs, i);
        return Outcome(Unknown, 0.0, ScoreError);
      }
      LowestStep(score, docs, i, minConfidence);
      if i == 0 || r.value.confidence < minConfidence { minConfidence := r.value.confidence; }
      if !r.value.matches {
        assert StopsAt(score, docs, i);
        return Outcome(Mismatched, minConfidence, SignatureMismatch(i + 1, r.value.confidence));
      }
    }
    return Outcome(if |docs| == 0 then Unknown else Matched, minConfidence, NoError);
  }

  /** The stream's records are these documents, numbered from 1, in order. */
  predicate StreamOf<D(==)>(items: seq<Item<D>>, docs: seq<D>) {
    |items| == |docs| && forall i :: 0 <= i < |items| ==> items[i].num == i + 1 && items[i].doc == Ok(docs[i])
  }

  /** Every record that passes is extracted and emitted without error. */
  predicate Emits<D(==)>(score: D -> Result<Score>, items: seq<Item<D>>, docs: seq<D>)
    requires |items| == |docs|
  {
    forall i :: 0 <= i < |items| && AllPass(score, docs, i + 1) ==> items[i].emits
  }

  /** The streaming loop; `ends` says whether the scanner reaches the end of the input. */
  method Streaming<D(==)>(score: D -> Result<Score>, items: seq<Item<D>>, ends: bool, ghost docs: seq<D>) returns (o: Outcome)
    ensures StreamOf(items, docs) && ends && Emits(score, items, docs) ==> Judges(score, docs, o)
    ensures StreamOf(items, docs) && ends && Emits(score, items, docs) && o.cause == ScoreError ==>
      exists k :: 0 <= k < |docs| && StopsAt(score, docs, k) && score(docs[k]).Err? && Lowest(score, docs, k, o.confidence)
  {
    var scored, minConfidence := 0, 0.0;
    o := Outcome(Unknown, 0.0, NoError);
    ghost var clean := StreamOf(items, docs) && ends && Emits(score, items, docs);
    for i := 0 to |items|
      invariant scored == i && o.status == Unknown && o.cause == NoError && o.confidence == minConfidence
      invariant clean ==> AllPass(score, docs, i) && Lowest(score, docs, i, minConfidence)
    {
      if items[i].doc == Err { return o.(cause := OtherError); }
      var r := score(items[i].doc.value);
      if r == Err {
        assert clean ==> StopsAt(score, docs, i);
        return o.(cause := ScoreError);
      }
      if clean { LowestStep(score, docs, i, minConfidence); }
      if scored == 0 || r.value.confidence < minConfidence { minConfidence := r.value.confidence; }
      scored := scored + 1;
      o := o.(confidence := minConfidence);
      if !r.value.matches {
        assert clean ==> StopsAt(score, docs, i);
        return o.(status := Mismatched, cause := SignatureMismatch(items[i].num, r.value.confidence));
      }
      if clean {
        assert Passes(score, docs[i]);
        assert AllPass(score, docs, i + 1);
      }
      if !items[i].emits { return o.(cause := OtherError); }
    }
    if !ends { return o.(cause := OtherError); }
    if scored > 0 { o := o.(status := Matched); }
  }

  /**
   On a stream of the selected nodes whose records are extracted and emitted, both routes
   give the same status, the same first mismatching record and the same lowest confidence.
   Only a scoring error after the first record leaves different confidences behind.
   */
  method RoutesAgree<D(==)>(score: D -> Result<Score>, items: seq<Item<D>>, docs: seq<D>) returns (whole: Outcome, streamed: Outcome)
    requires StreamOf(items, docs) && Emits(score, items, docs)
    ensures whole.status == streamed.status && whole.cause == streamed.cause
    ensures whole.confidence == streamed.confidence || (whole.cause == ScoreError && docs != [] && Passes(score, docs[0]))
  {
    whole := WholeDocument(score, docs);
    streamed := Streaming(score, items, true, docs);
    VerdictIsUnique(score, docs, whole, streamed);
    if streamed.cause == ScoreError {
      ghost var k :| 0 <= k < |docs| && StopsAt(score, docs, k) && score(docs[k]).Err? && Lowest(score, docs, k, streamed.confidence);
      if k > 0 { assert Passes(score, docs[0]); }
    }
  }
}
