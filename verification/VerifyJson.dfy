/**
 Building and verifying an index of a JSON source: `internal/index/builder_json.go` and the
 lockstep loop of `internal/index/verify_json.go`. Hashing and the walk over the bytes are
 given functions; the selector is parsed as `ParseRecordSelector` does, and the scanner names
 every record it finds by the selector it parsed.
 */
module VerifyJson {
  import opened IndexTypes
  import opened Wrappers
  import opened IndexStats
  import Text
  import IndexStream

  type Bytes = seq<bv8>

  /** A record the scanner finds: its ordinal, its range, its name and depth. */
  datatype Fresh = Fresh(num: int, start: int, end: int, size: nat, name: string, depth: int)

  /** What a scan yields: its records, and whether it then ends or fails. */
  datatype Scan = Scan(found: seq<Fresh>, ends: bool)

  datatype Sel = Sel(raw: string, name: string)

  /** Where a record is: what the walk over the bytes finds for a selector, and whether it then ends or fails. */
  datatype Span = Span(num: int, start: int, end: int, size: nat, depth: int)
  datatype Walk = Walk(spans: seq<Span>, ends: bool)

  /** SHA-256 in hex, the walk of the JSON and NDJSON scanners, and which names are local element names. */
  datatype Tools = Tools(hash: Bytes -> string, walk: (Bytes, Sel) -> Walk, local: string -> bool)

  // ---- the selector

  predicate Special(c: char) { c in {'/', '[', ']', ':', '|', '@', '(', ')', '=', '\'', '"'} }

  function ParseSelector(t: Tools, selector: string): Result<Sel> {
    var raw := Text.Trim(selector);
    if raw == "" then Err
    else if "//" <= raw then Named(t, raw, Text.Trim(raw[2..]))
    else if "/" <= raw then Err
    else Named(t, raw, raw)
  }

  function Named(t: Tools, raw: string, name: string): Result<Sel> {
    if (exists i :: 0 <= i < |name| && Special(name[i])) || name == "" || !t.local(name) then Err else Ok(Sel(raw, name))
  }

  /** A parsed selector parses to itself. */
  lemma ParsedIsStable(t: Tools, selector: string)
    requires ParseSelector(t, selector).Ok?
    ensures ParseSelector(t, ParseSelector(t, selector).value.raw) == ParseSelector(t, selector)
  {
    Text.TrimTrims(selector);
    Text.TrimmedStays(Text.Trim(selector));
  }

  /** A name that a selector can select by. */
  predicate GoodName(t: Tools, name: string) {
    name != "" && Text.Trimmed(name) && t.local(name) && forall i :: 0 <= i < |name| ==> !Special(name[i])
  }

  /** Which selectors there are: a name, or two slashes and a name, with white space around or between. */
  lemma SelectorsAre(t: Tools, selector: string, sel: Sel)
    ensures ParseSelector(t, selector) == Ok(sel) <==>
      && sel.raw == Text.Trim(selector) && GoodName(t, sel.name)
      && (sel.raw == sel.name || ("//" <= sel.raw && sel.name == Text.Trim(sel.raw[2..])))
  {
    var raw := Text.Trim(selector);
    Text.TrimTrims(selector);
    if "//" <= raw {
      Text.TrimTrims(raw[2..]);
      assert raw[0] == '/' && Special('/');
    } else if "/" <= raw {
      assert raw[0] == '/' && Special('/');
    }
  }

  /** A record scanner: it parses its selector and gives every record the selector's name. */
  function NewScan(t: Tools, b: Bytes, selector: string): Scan {
    match ParseSelector(t, selector)
    case Err => Scan([], false)
    case Ok(s) =>
      var w := t.walk(b, s);
      Scan(seq(|w.spans|, i requires 0 <= i < |w.spans| =>
             Fresh(w.spans[i].num, w.spans[i].start, w.spans[i].end, w.spans[i].size, s.name, w.spans[i].depth)), w.ends)
  }

  /** No scanned record is nameless: a selector without a name does not parse. */
  lemma ScannedIsNamed(t: Tools, b: Bytes, selector: string, i: nat)
    requires i < |NewScan(t, b, selector).found|
    ensures ParseSelector(t, selector).Ok? && NewScan(t, b, selector).found[i].name == ParseSelector(t, selector).value.name != ""
  {
  }

  // ---- one record against the source

  predicate InRange(b: Bytes, start: int, end: int) { 0 <= start <= end <= |b| }

  function RangeHash(t: Tools, b: Bytes, start: int, end: int): Result<string> {
    if InRange(b, start, end) then Ok(t.hash(b[start..end])) else Err
  }

  /** An index that keeps no name for a record means the selector's. */
  function NameOf(r: Record, elementName: string): string { if r.name == "" then elementName else r.name }

  predicate SameFields(f: Fresh, r: Record, elementName: string) {
    && r.num == f.num && r.start == f.start && r.end == f.end && r.size == f.size
    && NameOf(r, elementName) == f.name && r.depth == f.depth && r.ctxRef == 0
  }

  predicate SameRecord(t: Tools, b: Bytes, f: Fresh, r: Record, elementName: string) {
    SameFields(f, r, elementName) && RangeHash(t, b, f.start, f.end) == Ok(r.sha256)
  }

  predicate AllSame(t: Tools, b: Bytes, found: seq<Fresh>, records: seq<Record>, elementName: string) {
    |records| == |found| && forall i :: 0 <= i < |found| ==> SameRecord(t, b, found[i], records[i], elementName)
  }

  // ---- the verifier

  /** An index as the verifier sees it: its records, whether reading them ends or fails, and its trailing summary if it has one. */
  datatype Provider = Provider(records: seq<Record>, ends: bool, trailing: bool, final: Result<Summary>)

  datatype Verdict = Valid(verified: nat) | Invalid | Broken

  function Declared(h: Header, p: Provider): Result<int> {
    if !p.trailing then Ok(h.summary.total) else if p.final.Ok? then Ok(p.final.value.total) else Err
  }

  /** What the index must say to describe these bytes: an independent statement of validity. */
  predicate Describes(t: Tools, b: Bytes, h: Header, p: Provider) {
    && ParseSelector(t, h.selector.xpath).Ok?
    && (var s := ParseSelector(t, h.selector.xpath).value; var sc := NewScan(t, b, s.raw);
      && s.name == h.selector.elementName && h.summary.total >= 0
      && h.source.sizeBytes == |b| && h.source.sha256 == t.hash(b)
      && sc.ends && p.ends && AllSame(t, b, sc.found, p.records, h.selector.elementName)
      && Declared(h, p) == Ok(|sc.found|))
  }

  function Nameless(records: seq<Record>): (r: seq<Record>)
    ensures |r| == |records| && forall i :: 0 <= i < |r| ==> r[i] == records[i].(name := "")
  {
    seq(|records|, i requires 0 <= i < |records| => records[i].(name := ""))
  }

  /** An index that leaves the names out describes the bytes as well as one that has them. */
  lemma NamelessDescribes(t: Tools, b: Bytes, h: Header, p: Provider)
    requires Describes(t, b, h, p)
    ensures Describes(t, b, h, p.(records := Nameless(p.records)))
  {
    var s := ParseSelector(t, h.selector.xpath).value;
    var found := NewScan(t, b, s.raw).found;
    ParsedIsStable(t, h.selector.xpath);
    forall i | 0 <= i < |found|
      ensures SameRecord(t, b, found[i], Nameless(p.records)[i], h.selector.elementName)
    {
      ScannedIsNamed(t, b, s.raw, i);
      assert SameRecord(t, b, found[i], p.records[i], h.selector.elementName);
    }
  }

  function Min(a: nat, b: nat): nat { if a < b then a else b }

  /** The lockstep loop; `steps` counts how often both iterators were advanced. */
  method Lockstep(t: Tools, b: Bytes, sc: Scan, h: Header, p: Provider) returns (v: Verdict, steps: nat)
    ensures steps <= Min(|sc.found|, |p.records|) + 1
    ensures v.Valid? <==> sc.ends && p.ends && AllSame(t, b, sc.found, p.records, h.selector.elementName) && Declared(h, p) == Ok(|sc.found|)
    ensures v.Valid? ==> v.verified == |sc.found|
  {
    var count := 0;
    steps := 0;
    while true
      invariant steps == count <= Min(|sc.found|, |p.records|)
      invariant forall i :: 0 <= i < count ==> SameRecord(t, b, sc.found[i], p.records[i], h.selector.elementName)
      decreases |sc.found| - count
    {
      steps := steps + 1;
      var scanEof, iterEof := count == |sc.found|, count == |p.records|;
      if scanEof && !sc.ends { return Invalid, steps; }
      if iterEof && !p.ends { return Broken, steps; }
      if scanEof && iterEof {
        if p.trailing && p.final == Err { return Invalid, steps; }
        var declared := if p.trailing then p.final.value.total else h.summary.total;
        if count != declared { return Invalid, steps; }
        return Valid(count), steps;
      }
      if scanEof || iterEof { return Invalid, steps; }
      var live, indexed := sc.found[count], p.records[count];
      if !SameFields(live, indexed, h.selector.elementName) { return Invalid, steps; }
      var recordHash := RangeHash(t, b, live.start, live.end);
      if recordHash == Err { return Broken, steps; }
      if recordHash.value != indexed.sha256 { return Invalid, steps; }
      count := count + 1;
    }
  }

  /** verifyJSON says valid exactly when the index describes the bytes. */
  method Verify(t: Tools, b: Bytes, h: Header, p: Provider) returns (v: Verdict, steps: nat)
    ensures v.Valid? <==> Describes(t, b, h, p)
    ensures v.Valid? ==> v.verified == |p.records|
    ensures ParseSelector(t, h.selector.xpath).Ok? ==>
      steps <= Min(|NewScan(t, b, ParseSelector(t, h.selector.xpath).value.raw).found|, |p.records|) + 1
  {
    steps := 0;
    var parsed := ParseSelector(t, h.selector.xpath);
    if parsed == Err { return Invalid, steps; }
    if parsed.value.name != h.selector.elementName { return Invalid, steps; }
    if h.summary.total < 0 { return Invalid, steps; }
    if |b| != h.source.sizeBytes { return Invalid, steps; }
    if t.hash(b) != h.source.sha256 { return Invalid, steps; }
    v, steps := Lockstep(t, b, NewScan(t, b, parsed.value.raw), h, p);
  }

  // ---- the builder

  /** The index buildJSONTo produces: what Start, AppendRecord and Prepare receive. */
  datatype Built = Built(header: Header, records: seq<Record>, final: Header)

  function RecordOf(f: Fresh, sha: string): Record { Record(f.num, f.start, f.end, f.size, sha, f.name, f.depth, 0) }

  function Sizes(found: seq<Fresh>): (r: seq<nat>)
    ensures |r| == |found| && forall i :: 0 <= i < |found| ==> r[i] == found[i].size
  {
    seq(|found|, i requires 0 <= i < |found| => found[i].size)
  }

  /** The header before the scan; the namespace table is the reserved one. */
  function NewHeader(t: Tools, b: Bytes, path: string, s: Sel, m: Metadata): Header {
    Header(SCHEMA, Source(path, |b|, t.hash(b), SOURCE_BYTES, "json"), Selector(s.raw, s.name), EMPTY_TABLE, NO_SUMMARY, m)
  }

  /** The scan loop: one record for each found, or an error. */
  method ScanRecords(t: Tools, b: Bytes, sc: Scan) returns (ok: bool, records: seq<Record>)
    ensures ok <==> sc.ends && forall i :: 0 <= i < |sc.found| ==> InRange(b, sc.found[i].start, sc.found[i].end)
    ensures ok ==> |records| == |sc.found| && forall i :: 0 <= i < |records| ==>
      InRange(b, sc.found[i].start, sc.found[i].end) && records[i] == RecordOf(sc.found[i], t.hash(b[sc.found[i].start..sc.found[i].end]))
  {
    records := [];
    for i := 0 to |sc.found|
      invariant |records| == i && forall j :: 0 <= j < i ==>
        InRange(b, sc.found[j].start, sc.found[j].end) && records[j] == RecordOf(sc.found[j], t.hash(b[sc.found[j].start..sc.found[j].end]))
    {
      var f := sc.found[i];
      var sha := RangeHash(t, b, f.start, f.end);
      if sha == Err { return false, records; }
      records := records + [RecordOf(f, sha.value)];
    }
    ok := sc.ends;
  }

  /** buildJSONTo; `later` are the bytes of the source when it is hashed again at the end. */
  method Build(t: Tools, b: Bytes, later: Bytes, path: string, selector: string, m: Metadata, want: Wanted) returns (r: Result<Built>)
    ensures r.Ok? ==> ParseSelector(t, selector).Ok? && Faithful(t, b, path, ParseSelector(t, selector).value, m, r.value)
    ensures r.Ok? <==> ParseSelector(t, selector).Ok? && Buildable(t, b, ParseSelector(t, selector).value) && t.hash(later) == t.hash(b)
  {
    var parsed := ParseSelector(t, selector);
    if parsed == Err { return Err; }
    var sc := NewScan(t, b, parsed.value.raw);
    var ok, records := ScanRecords(t, b, sc);
    if !ok || t.hash(later) != t.hash(b) { return Err; }
    var header := NewHeader(t, b, path, parsed.value, m);
    var summary := Summarize(Sizes(sc.found), want);
    return Ok(Built(header, records, header.(summary := summary)));
  }

  /** The source scans to its end and every record lies in it. */
  predicate Buildable(t: Tools, b: Bytes, s: Sel) {
    var sc := NewScan(t, b, s.raw);
    sc.ends && forall i :: 0 <= i < |sc.found| ==> InRange(b, sc.found[i].start, sc.found[i].end)
  }

  /** A built index: its header, one record for each the scan found with its hash, and their count. */
  predicate Faithful(t: Tools, b: Bytes, path: string, s: Sel, m: Metadata, x: Built) {
    var sc := NewScan(t, b, s.raw);
    && x.header == NewHeader(t, b, path, s, m) && x.final.summary.total == |sc.found| == |x.records| && sc.ends
    && forall i :: 0 <= i < |x.records| ==> FromScan(t, b, sc.found[i], x.records[i])
  }

  predicate FromScan(t: Tools, b: Bytes, f: Fresh, r: Record) {
    RangeHash(t, b, f.start, f.end) == Ok(r.sha256) && r == RecordOf(f, r.sha256)
  }

  /**
   A built index in terms of the bytes and the walk over them: the header names the source, its
   size, its hash and the selector, and the records are the walk's, each with the hash of its
   range. It is built exactly if the walk ends and finds no range outside the bytes.
   */
  lemma BuiltIs(t: Tools, b: Bytes, path: string, selector: string, m: Metadata, x: Built)
    requires ParseSelector(t, selector).Ok?
    ensures var s := ParseSelector(t, selector).value; var w := t.walk(b, s);
      && (Faithful(t, b, path, s, m, x) ==>
            && x.header.source == Source(path, |b|, t.hash(b), "source_bytes", "json") && x.header.metadata == m
            && x.header.selector == Selector(s.raw, s.name) && x.header.contexts == [Context(0, [])]
            && x.final.summary.total == |x.records| == |w.spans|
            && forall i :: 0 <= i < |w.spans| ==>
              var at := w.spans[i];
              InRange(b, at.start, at.end) && x.records[i] == Record(at.num, at.start, at.end, at.size, t.hash(b[at.start..at.end]), s.name, at.depth, 0))
      && (Buildable(t, b, s) <==> w.ends && forall i :: 0 <= i < |w.spans| ==> InRange(b, w.spans[i].start, w.spans[i].end))
  {
    ParsedIsStable(t, selector);
    var s := ParseSelector(t, selector).value;
    var w, sc := t.walk(b, s), NewScan(t, b, s.raw);
    assert |sc.found| == |w.spans| && sc.ends == w.ends;
    forall i | 0 <= i < |w.spans|
      ensures sc.found[i] == Fresh(w.spans[i].num, w.spans[i].start, w.spans[i].end, w.spans[i].size, s.name, w.spans[i].depth)
    {
    }
    if Faithful(t, b, path, s, m, x) {
      forall i | 0 <= i < |w.spans| ensures InRange(b, w.spans[i].start, w.spans[i].end) {
        assert FromScan(t, b, sc.found[i], x.records[i]);
      }
    }
  }

  /** The index read back through the stream: the header without summary and metadata, and the trailing summary. */
  function Reread(x: Built): (Header, Provider) {
    (IndexStream.ExpectedHeader(x.header), Provider(x.records, true, true, Ok(x.final.summary)))
  }

  /** An index built from bytes describes the same bytes. */
  lemma BuiltVerifies(t: Tools, b: Bytes, path: string, selector: string, m: Metadata, x: Built)
    requires ParseSelector(t, selector).Ok? && Faithful(t, b, path, ParseSelector(t, selector).value, m, x)
    ensures Describes(t, b, Reread(x).0, Reread(x).1)
  {
    ParsedIsStable(t, selector);
    var s := ParseSelector(t, selector).value;
    var sc, h, p := NewScan(t, b, s.raw), Reread(x).0, Reread(x).1;
    forall i | 0 <= i < |x.records| ensures SameRecord(t, b, sc.found[i], p.records[i], h.selector.elementName) {
      ScannedIsNamed(t, b, s.raw, i);
      assert FromScan(t, b, sc.found[i], x.records[i]);
    }
  }

  /** Build, write, read back and verify, over unchanged bytes. */
  method BuildAndVerify(t: Tools, b: Bytes, path: string, selector: string, m: Metadata, want: Wanted) returns (built: bool, v: Verdict)
    ensures built ==> v.Valid?
    ensures built <==> ParseSelector(t, selector).Ok? && Buildable(t, b, ParseSelector(t, selector).value)
  {
    v := Invalid;
    var r := Build(t, b, b, path, selector, m, want);
    if r == Err { return false, v; }
    var x := r.value;
    var written, ok, header, read, summary := IndexStream.RoundTrip(x.header, x.records, x.final);
    BuiltVerifies(t, b, path, selector, m, x);
    var steps;
    v, steps := Verify(t, b, Header(header.version, header.source, header.selector, header.buf[..header.n], header.summary, header.metadata),
                       Provider(read, true, true, Ok(summary)));
    built := true;
  }
}
