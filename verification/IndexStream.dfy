/**
 The streaming reader `internal/index/stream_reader.go` over the token stream that the
 progressive writer `internal/index/writer.go` produces. A JSON value of one field is one
 token, assumed to decode to what was encoded, and to nothing of another type.
 */
module IndexStream {
  import opened IndexTypes
  import opened Wrappers
  import opened Text

  datatype Value =
    | VersionValue(version: string)
    | SourceValue(source: Source)
    | SelectorValue(selector: Selector)
    | ContextsValue(contexts: seq<Context>)
    | SummaryValue(summary: Summary)
    | MetadataValue(metadata: Metadata)
    | RecordValue(record: Record)
    | OtherValue(text: string)

  datatype Token = ObjectOpen | ObjectClose | ArrayOpen | ArrayClose | Key(key: string) | Val(value: Value)

  datatype Field = Field(key: string, value: Value)

  const KNOWN := {"version", "source", "selector", "namespace_contexts", "summary", "metadata"}

  predicate Decodes(key: string, v: Value) {
    match key
    case "version" => v.VersionValue?
    case "source" => v.SourceValue?
    case "selector" => v.SelectorValue?
    case "namespace_contexts" => v.ContextsValue?
    case "summary" => v.SummaryValue?
    case "metadata" => v.MetadataValue?
    case _ => true
  }

  function Decoded(h: Header, f: Field): Header
    requires Decodes(f.key, f.value)
  {
    match f.key
    case "version" => h.(version := f.value.version)
    case "source" => h.(source := f.value.source)
    case "selector" => h.(selector := f.value.selector)
    case "namespace_contexts" => h.(contexts := f.value.contexts)
    case "summary" => h.(summary := f.value.summary)
    case "metadata" => h.(metadata := f.value.metadata)
    case _ => h
  }

  // ---- the layout of an index

  function FieldTokens(fields: seq<Field>): seq<Token> {
    if fields == [] then [] else [Key(fields[0].key), Val(fields[0].value)] + FieldTokens(fields[1..])
  }

  function RecordTokens(records: seq<Record>): seq<Token> {
    if records == [] then [] else [Val(RecordValue(records[0]))] + RecordTokens(records[1..])
  }

  /** An index document: the fields before its records, the records, and the fields after. */
  datatype Doc = Doc(before: seq<Field>, records: seq<Record>, after: seq<Field>)

  function Layout(d: Doc): seq<Token> {
    [ObjectOpen] + (FieldTokens(d.before) + ([Key("records"), ArrayOpen]
      + (RecordTokens(d.records) + ([ArrayClose] + (FieldTokens(d.after) + [ObjectClose])))))
  }

  function Marked(seen: set<string>, key: string): set<string> { if key in KNOWN then seen + {key} else seen }

  function SeenAfter(fields: seq<Field>, seen: set<string>): set<string> {
    if fields == [] then seen else SeenAfter(fields[1..], Marked(seen, fields[0].key))
  }

  /** Fields a reader takes: none is "records", no known one comes twice, each decodes. */
  predicate GoodFields(fields: seq<Field>, seen: set<string>) {
    fields == [] || (
      && fields[0].key != "records" && fields[0].key !in seen && Decodes(fields[0].key, fields[0].value)
      && GoodFields(fields[1..], Marked(seen, fields[0].key)))
  }

  predicate GoodDoc(d: Doc) { GoodFields(d.before, {}) && GoodFields(d.after, SeenAfter(d.before, {})) }

  function HeaderOf(h: Header, fields: seq<Field>, seen: set<string>): Header
    requires GoodFields(fields, seen)
    decreases |fields|
  {
    if fields == [] then h else HeaderOf(Decoded(h, fields[0]), fields[1..], Marked(seen, fields[0].key))
  }

  // ---- what the reader's loops recognise

  datatype Scanned = Bad | AtRecords(fields: seq<Field>, rest: seq<Token>) | AtEnd(fields: seq<Field>, rest: seq<Token>)

  function Prepend(f: Field, s: Scanned): Scanned {
    match s
    case Bad => Bad
    case AtRecords(fs, rest) => AtRecords([f] + fs, rest)
    case AtEnd(fs, rest) => AtEnd([f] + fs, rest)
  }

  function Scan(toks: seq<Token>, seen: set<string>): Scanned {
    if toks == [] then Bad
    else if toks[0] == ObjectClose then AtEnd([], toks[1..])
    else if !toks[0].Key? then Bad
    else if toks[0].key == "records" then (if |toks| > 1 && toks[1] == ArrayOpen then AtRecords([], toks[2..]) else Bad)
    else if toks[0].key in seen then Bad
    else if |toks| < 2 || !toks[1].Val? || !Decodes(toks[0].key, toks[1].value) then Bad
    else Prepend(Field(toks[0].key, toks[1].value), Scan(toks[2..], Marked(seen, toks[0].key)))
  }

  /** A scan's answer is true to the tokens: good fields, and then what it stopped at. */
  predicate TrueTo(toks: seq<Token>, seen: set<string>, s: Scanned) {
    match s
    case Bad => true
    case AtRecords(fs, rest) => GoodFields(fs, seen) && toks == FieldTokens(fs) + ([Key("records"), ArrayOpen] + rest)
    case AtEnd(fs, rest) => GoodFields(fs, seen) && toks == FieldTokens(fs) + ([ObjectClose] + rest)
  }

  lemma TokensPrepend(f: Field, fs: seq<Field>, tail: seq<Token>)
    ensures FieldTokens([f] + fs) + tail == [Key(f.key), Val(f.value)] + (FieldTokens(fs) + tail)
  {
    assert ([f] + fs)[1..] == fs;
  }

  lemma TrueStep(f: Field, tail: seq<Token>, seen: set<string>, s: Scanned)
    requires f.key != "records" && f.key !in seen && Decodes(f.key, f.value) && TrueTo(tail, Marked(seen, f.key), s)
    ensures TrueTo([Key(f.key), Val(f.value)] + tail, seen, Prepend(f, s))
  {
    if !s.Bad? {
      assert ([f] + s.fields)[1..] == s.fields;
      TokensPrepend(f, s.fields, if s.AtRecords? then [Key("records"), ArrayOpen] + s.rest else [ObjectClose] + s.rest);
    }
  }

  /** What the loops recognise is there. */
  lemma {:induction false} ScanFinds(toks: seq<Token>, seen: set<string>)
    ensures TrueTo(toks, seen, Scan(toks, seen))
    decreases |toks|
  {
    var s := Scan(toks, seen);
    if s.Bad? {
    } else if toks[0] == ObjectClose {
      assert toks == FieldTokens([]) + ([ObjectClose] + toks[1..]);
    } else if toks[0].key == "records" {
      assert toks == FieldTokens([]) + ([Key("records"), ArrayOpen] + toks[2..]);
    } else {
      var f := Field(toks[0].key, toks[1].value);
      ScanFinds(toks[2..], Marked(seen, f.key));
      TrueStep(f, toks[2..], seen, Scan(toks[2..], Marked(seen, f.key)));
      assert toks == [Key(f.key), Val(f.value)] + toks[2..];
    }
  }

  /** One field in front of what follows it. */
  lemma ScanStep(f: Field, tail: seq<Token>, seen: set<string>)
    requires f.key != "records" && f.key !in seen && Decodes(f.key, f.value)
    ensures Scan([Key(f.key), Val(f.value)] + tail, seen) == Prepend(f, Scan(tail, Marked(seen, f.key)))
  {
    assert ([Key(f.key), Val(f.value)] + tail)[2..] == tail;
  }

  /** `end` is where the fields stop: the records array or the end of the object. */
  lemma {:induction false} ScanTakes(fs: seq<Field>, seen: set<string>, end: seq<Token>)
    requires GoodFields(fs, seen) && end != [] && (end[0] == ObjectClose || end[0] == Key("records"))
    ensures Scan(FieldTokens(fs) + end, seen) ==
      match Scan(end, SeenAfter(fs, seen)) {
        case Bad => Bad
        case AtRecords(_, rest) => AtRecords(fs, rest)
        case AtEnd(_, rest) => AtEnd(fs, rest)
      }
    decreases |fs|
  {
    if fs == [] {
      assert FieldTokens(fs) + end == end;
    } else {
      ScanTakes(fs[1..], Marked(seen, fs[0].key), end);
      ScanStep(fs[0], FieldTokens(fs[1..]) + end, seen);
      assert FieldTokens(fs) + end == [Key(fs[0].key), Val(fs[0].value)] + (FieldTokens(fs[1..]) + end);
      assert [fs[0]] + fs[1..] == fs;
    }
  }

  // ---- the reader as a value

  datatype Phase = InFields | InRecords | Finished

  datatype Reader = Reader(rest: seq<Token>, header: Header, seen: set<string>, phase: Phase)

  /** The fields found so far go into the header. */
  ghost function Absorbed(r: Reader, fs: seq<Field>, rest: seq<Token>, phase: Phase): Reader
    requires GoodFields(fs, r.seen)
  {
    Reader(rest, HeaderOf(r.header, fs, r.seen), SeenAfter(fs, r.seen), phase)
  }

  /** Where a reader in its fields is once it stands in the records array. */
  ghost predicate Reaches(r: Reader, t: Reader) {
    exists fs, rest :: Scan(r.rest, r.seen) == AtRecords(fs, rest) && GoodFields(fs, r.seen) && t == Absorbed(r, fs, rest, InRecords)
  }

  /** Where a reader past its last record is once it stands after the object. */
  ghost predicate Ends(r: Reader, t: Reader) {
    exists fs, rest :: Scan(r.rest, r.seen) == AtEnd(fs, rest) && GoodFields(fs, r.seen) && t == Absorbed(r, fs, rest, Finished)
  }

  datatype Answer = Got(record: Record) | Eof | Failed

  /** What NextRecord answers in the records array, and where it leaves the reader unless it failed. */
  ghost predicate Answers(r: Reader, a: Answer, t: Reader)
    requires r.phase == InRecords
  {
    match a
    case Got(rec) => r.rest != [] && r.rest[0] == Val(RecordValue(rec)) && t == r.(rest := r.rest[1..])
    case Eof => r.rest != [] && r.rest[0] == ArrayClose && Ends(r.(rest := r.rest[1..]), t)
    case Failed =>
      && (r.rest == [] || !r.rest[0].Val? || !r.rest[0].value.RecordValue?)
      && (r.rest != [] && r.rest[0] == ArrayClose ==> !Scan(r.rest[1..], r.seen).AtEnd?)
  }

  // ---- the header object

  /** The stream's header; its namespace table is a slice, `buf[..n]`, that decoding may write into. */
  class IndexHeader {
    var version: string
    var source: Source
    var selector: Selector
    var buf: array<Context>
    var n: nat
    var summary: Summary
    var metadata: Metadata

    ghost predicate Valid() reads this { n <= buf.Length }

    ghost function Value(): Header
      requires Valid()
      reads this, buf
    {
      Header(version, source, selector, buf[..n], summary, metadata)
    }

    constructor (h: Header)
      ensures Valid() && Value() == h && fresh(buf)
    {
      version, source, selector, summary, metadata := h.version, h.source, h.selector, h.summary, h.metadata;
      n := |h.contexts|;
      buf := new Context[|h.contexts|](i requires 0 <= i < |h.contexts| => h.contexts[i]);
      new;
      assert buf[..] == h.contexts && buf[..n] == buf[..];
    }

    /** Decoding into a slice reuses its array when it is large enough. */
    method DecodeContexts(v: seq<Context>)
      requires Valid()
      modifies this`buf, this`n, buf
      ensures Valid() && Value() == old(Value()).(contexts := v)
      ensures buf == old(buf) || fresh(buf)
    {
      if |v| <= buf.Length {
        var a := buf;
        for i := 0 to |v|
          modifies a
          invariant forall j :: 0 <= j < i ==> a[j] == v[j]
        {
          a[i] := v[i];
        }
      } else {
        buf := new Context[|v|](i requires 0 <= i < |v| => v[i]);
      }
      n := |v|;
      assert buf[..n] == v;
    }

    method DecodeField(f: Field)
      requires Valid() && Decodes(f.key, f.value)
      modifies this, buf
      ensures Valid() && Value() == Decoded(old(Value()), f)
      ensures buf == old(buf) || fresh(buf)
    {
      match f.key
      case "version" => version := f.value.version;
      case "source" => source := f.value.source;
      case "selector" => selector := f.value.selector;
      case "namespace_contexts" => DecodeContexts(f.value.contexts);
      case "summary" => summary := f.value.summary;
      case "metadata" => metadata := f.value.metadata;
      case _ =>
    }

    /** A copy that shares nothing with this header: the table is cloned, not only the slice. */
    method Snapshot() returns (h: IndexHeader)
      requires Valid()
      ensures fresh(h) && fresh(h.buf) && h.Valid() && h.Value() == Value()
    {
      h := new IndexHeader(Header(version, source, selector, buf[..n], summary, metadata));
    }

    method Normalize()
      requires Valid()
      modifies this
      ensures Valid() && Value() == Normalized(old(Value()))
      ensures buf == old(buf) || fresh(buf)
    {
      if Blank(source.offsetKind) {
        source := source.(offsetKind := SOURCE_BYTES);
      }
      if version == LEGACY_V012 && n == 0 {
        buf := new Context[1](i => Context(0, []));
        n := 1;
        assert buf[..n] == EMPTY_TABLE;
      } else {
        assert version == LEGACY_V012 ==> buf[..n] != [];
      }
    }
  }

  // ---- the stream

  class RecordIndexStream {
    const toks: seq<Token>
    const header: IndexHeader
    var pos: nat
    var inRecords: bool
    var recordsDone: bool
    var objectDone: bool
    var recordsFieldSet: bool
    var seen: set<string>

    ghost predicate Valid() reads this, header {
      && 0 < pos <= |toks| && toks[0] == ObjectOpen && header.Valid() && seen <= KNOWN
      && (inRecords ==> recordsFieldSet && !recordsDone && !objectDone)
      && (!inRecords ==> recordsDone == objectDone == recordsFieldSet)
    }

    ghost function View(): Reader
      requires Valid()
      reads this, header, header.buf
    {
      Reader(toks[pos..], header.Value(), seen, if inRecords then InRecords else if objectDone then Finished else InFields)
    }

    constructor (toks: seq<Token>)
      requires toks != [] && toks[0] == ObjectOpen
      ensures Valid() && this.toks == toks && fresh(header) && fresh(header.buf)
      ensures View() == Reader(toks[1..], NO_HEADER, {}, InFields)
    {
      this.toks, pos := toks, 1;
      header := new IndexHeader(NO_HEADER);
      inRecords, recordsDone, objectDone, recordsFieldSet, seen := false, false, false, false, {};
    }

    /** Reads one field that is not "records". */
    method DecodeFieldIntoHeader() returns (ok: bool)
      requires 0 < pos < |toks| && header.Valid() && seen <= KNOWN && toks[pos].Key? && toks[pos].key != "records"
      modifies this`pos, this`seen, header, header.buf
      ensures header.Valid() && (header.buf == old(header.buf) || fresh(header.buf)) && seen <= KNOWN
      ensures ok <==> old(toks[pos].key !in seen && pos + 1 < |toks| && toks[pos + 1].Val? && Decodes(toks[pos].key, toks[pos + 1].value))
      ensures !ok ==> pos == old(pos)
      ensures ok ==> pos == old(pos) + 2 && seen == Marked(old(seen), toks[old(pos)].key)
      ensures ok ==> header.Value() == Decoded(old(header.Value()), Field(toks[old(pos)].key, toks[old(pos) + 1].value))
    {
      var key := toks[pos].key;
      if key in KNOWN {
        if key in seen { return false; }
        seen := seen + {key};
      }
      if pos + 1 >= |toks| || !toks[pos + 1].Val? || !Decodes(key, toks[pos + 1].value) { return false; }
      header.DecodeField(Field(key, toks[pos + 1].value));
      pos := pos + 2;
      return true;
    }

    /** The part the two field loops share: fields up to a token that is no field key, or a field that fails. */
    method ParseFields() returns (ok: bool, ghost fs: seq<Field>)
      requires 0 < pos <= |toks| && header.Valid() && seen <= KNOWN
      modifies this`pos, this`seen, header, header.buf
      ensures 0 < pos <= |toks| && header.Valid() && (header.buf == old(header.buf) || fresh(header.buf)) && seen <= KNOWN
      ensures !ok ==> Scan(old(toks[pos..]), old(seen)) == Bad
      ensures ok ==> GoodFields(fs, old(seen)) && Scan(old(toks[pos..]), old(seen)) == After(fs, Scan(toks[pos..], seen))
      ensures ok ==> header.Value() == HeaderOf(old(header.Value()), fs, old(seen)) && seen == SeenAfter(fs, old(seen))
      ensures ok ==> pos == |toks| || !toks[pos].Key? || toks[pos].key == "records"
    {
      fs, ok := [], true;
      ghost var start := Scan(toks[pos..], seen);
      AfterNone(start);
      while pos < |toks| && toks[pos].Key? && toks[pos].key != "records"
        invariant ok && 0 < pos <= |toks| && header.Valid() && (header.buf == old(header.buf) || fresh(header.buf)) && seen <= KNOWN
        invariant GoodFields(fs, old(seen)) && seen == SeenAfter(fs, old(seen)) && header.Value() == HeaderOf(old(header.Value()), fs, old(seen))
        invariant start == After(fs, Scan(toks[pos..], seen))
      {
        ghost var at, was := pos, seen;
        ok := DecodeFieldIntoHeader();
        if !ok { return; }
        ghost var f := Field(toks[at].key, toks[at + 1].value);
        AppendField(old(header.Value()), fs, f, old(seen));
        assert toks[at..][2..] == toks[pos..];
        AfterStep(fs, f, Scan(toks[pos..], seen));
        fs := fs + [f];
      }
    }

    method ParseUntilRecords() returns (ok: bool)
      requires Valid() && View().phase == InFields
      modifies this, header, header.buf
      ensures header.buf == old(header.buf) || fresh(header.buf)
      ensures ok <==> Scan(old(View().rest), old(View().seen)).AtRecords?
      ensures ok ==> Valid() && Reaches(old(View()), View())
    {
      ghost var fs;
      ok, fs := ParseFields();
      if !ok { return; }
      if pos == |toks| || !toks[pos].Key? {
        objectDone := pos < |toks| && toks[pos] == ObjectClose;
        return false;
      }
      if pos + 1 >= |toks| || toks[pos + 1] != ArrayOpen { return false; }
      assert toks[pos..][2..] == toks[pos + 2..] && fs + [] == fs;
      inRecords, recordsFieldSet, pos := true, true, pos + 2;
      assert View() == Absorbed(old(View()), fs, View().rest, InRecords);
    }

    method ParseRemainingObjectFields() returns (ok: bool)
      requires 0 < pos <= |toks| && header.Valid() && seen <= KNOWN && toks[0] == ObjectOpen
      requires recordsDone && !inRecords && !objectDone && recordsFieldSet
      modifies this, header, header.buf
      ensures header.buf == old(header.buf) || fresh(header.buf)
      ensures ok <==> Scan(old(toks[pos..]), old(seen)).AtEnd?
      ensures ok ==> Valid() && View().phase == Finished && Ends(Reader(old(toks[pos..]), old(header.Value()), old(seen), InRecords), View())
    {
      ghost var fs;
      ok, fs := ParseFields();
      if !ok { return; }
      if pos == |toks| || toks[pos] != ObjectClose { return false; }
      assert toks[pos..][1..] == toks[pos + 1..] && fs + [] == fs;
      objectDone, pos := true, pos + 1;
      ghost var was := Reader(old(toks[pos..]), old(header.Value()), old(seen), InRecords);
      assert View() == Absorbed(was, fs, View().rest, Finished);
    }

    /** Header: a detached copy of the header read so far, with defaults filled in. */
    method GetHeader() returns (h: IndexHeader?)
      requires Valid()
      modifies this, header, header.buf
      ensures header.buf == old(header.buf) || fresh(header.buf)
      ensures h == null <==> old(View().phase) == InFields && !Scan(old(View().rest), old(View().seen)).AtRecords?
      ensures h != null ==> fresh(h) && fresh(h.buf) && h != header && h.buf != header.buf && h.Valid()
      ensures h != null ==> Valid() && h.Value() == View().header
      ensures h != null && old(View().phase) == InFields ==> exists t :: Reaches(old(View()), t) && View() == t.(header := Normalized(t.header))
      ensures h != null && old(View().phase) != InFields ==> View() == old(View()).(header := Normalized(old(View()).header))
    {
      if !objectDone && !inRecords {
        var ok := ParseUntilRecords();
        if !ok { return null; }
      }
      header.Normalize();
      h := header.Snapshot();
    }

    /** NextRecord: the next record, the end of the records, or an error. */
    method NextRecord() returns (a: Answer)
      requires Valid()
      modifies this, header, header.buf
      ensures header.buf == old(header.buf) || fresh(header.buf)
      ensures a != Failed ==> Valid()
      ensures old(View().phase) == Finished ==> a == Eof && View() == old(View())
      ensures old(View().phase) == InRecords ==> (a == Failed && Answers(old(View()), a, old(View()))) || (a != Failed && Answers(old(View()), a, View()))
      ensures old(View().phase) == InFields && !Scan(old(View().rest), old(View().seen)).AtRecords? ==> a == Failed
      ensures old(View().phase) == InFields && a != Failed ==> exists t :: Reaches(old(View()), t) && Answers(t, a, View())
    {
      if objectDone { return Eof; }
      if !inRecords {
        var ok := ParseUntilRecords();
        if !ok { return Failed; }
        assert Reaches(old(View()), View());
      }
      a := NextInRecords();
    }

    method NextInRecords() returns (a: Answer)
      requires Valid() && View().phase == InRecords
      modifies this, header, header.buf
      ensures header.buf == old(header.buf) || fresh(header.buf)
      ensures if a == Failed then Answers(old(View()), a, old(View())) else Valid() && Answers(old(View()), a, View())
    {
      if pos < |toks| && toks[pos] == ArrayClose {
        assert toks[pos..][1..] == toks[pos + 1..];
        recordsDone, inRecords, pos := true, false, pos + 1;
        var ok := ParseRemainingObjectFields();
        return if ok then Eof else Failed;
      }
      if pos == |toks| || !toks[pos].Val? || !toks[pos].value.RecordValue? { return Failed; }
      a := Got(toks[pos].value.record);
      assert toks[pos..][1..] == toks[pos + 1..];
      pos := pos + 1;
    }

    /** FinalSummary: the summary, once everything is read and nothing follows. */
    method FinalSummary() returns (r: Result<Summary>)
      requires Valid()
      ensures r.Ok? <==> View().phase == Finished && "summary" in seen && View().header.summary.total >= 0 && View().rest == []
      ensures r.Ok? ==> r.value == View().header.summary
    {
      if !objectDone { return Err; }
      if "summary" !in seen { return Err; }
      if header.summary.total < 0 { return Err; }
      if pos != |toks| { return Err; }
      return Ok(header.summary);
    }
  }

  /** A scan with fields already read in front of it. */
  function After(fs: seq<Field>, s: Scanned): Scanned {
    match s
    case Bad => Bad
    case AtRecords(gs, rest) => AtRecords(fs + gs, rest)
    case AtEnd(gs, rest) => AtEnd(fs + gs, rest)
  }

  lemma AfterNone(s: Scanned)
    ensures After([], s) == s
  {
    if !s.Bad? { assert [] + s.fields == s.fields; }
  }

  lemma AfterStep(fs: seq<Field>, f: Field, s: Scanned)
    ensures After(fs, Prepend(f, s)) == After(fs + [f], s)
  {
    if !s.Bad? { assert fs + ([f] + s.fields) == (fs + [f]) + s.fields; }
  }

  lemma {:induction false} AppendField(h: Header, fs: seq<Field>, f: Field, seen: set<string>)
    requires GoodFields(fs, seen) && f.key != "records" && f.key !in SeenAfter(fs, seen) && Decodes(f.key, f.value)
    ensures GoodFields(fs + [f], seen) && SeenAfter(fs + [f], seen) == Marked(SeenAfter(fs, seen), f.key)
    ensures HeaderOf(h, fs + [f], seen) == Decoded(HeaderOf(h, fs, seen), f)
    decreases |fs|
  {
    if fs == [] {
      assert fs + [f] == [f] && [f][1..] == [];
      assert GoodFields([f][1..], Marked(seen, f.key));
    } else {
      AppendField(Decoded(h, fs[0]), fs[1..], f, Marked(seen, fs[0].key));
      assert (fs + [f])[1..] == fs[1..] + [f];
    }
  }

  // ---- reading a whole index

  ghost predicate IsLayout(toks: seq<Token>, d: Doc) { GoodDoc(d) && toks == Layout(d) }

  function Tail(d: Doc): seq<Token> { [ArrayClose] + (FieldTokens(d.after) + [ObjectClose]) }

  lemma HeadOfLayout(d: Doc)
    requires GoodDoc(d)
    ensures Scan(Layout(d)[1..], {}) == AtRecords(d.before, RecordTokens(d.records) + Tail(d))
  {
    var rest := RecordTokens(d.records) + Tail(d);
    var end := [Key("records"), ArrayOpen] + rest;
    assert Layout(d)[1..] == FieldTokens(d.before) + end;
    assert end[2..] == rest;
    ScanTakes(d.before, {}, end);
  }

  lemma TailOfLayout(d: Doc)
    requires GoodDoc(d)
    ensures Tail(d)[0] == ArrayClose && Scan(Tail(d)[1..], SeenAfter(d.before, {})) == AtEnd(d.after, [])
  {
    assert Tail(d)[1..] == FieldTokens(d.after) + [ObjectClose];
    assert [ObjectClose][1..] == [];
    ScanTakes(d.after, SeenAfter(d.before, {}), [ObjectClose]);
  }

  lemma {:induction false} RecordsAgree(a: seq<Record>, x: seq<Token>, b: seq<Record>, y: seq<Token>)
    requires RecordTokens(a) + x == RecordTokens(b) + y && y != [] && y[0] == ArrayClose
    ensures |a| <= |b| && a == b[..|a|] && x == RecordTokens(b[|a|..]) + y
    decreases |a|
  {
    if a == [] {
      assert RecordTokens(a) + x == x && b[0..] == b;
    } else {
      assert (RecordTokens(a) + x)[0] == Val(RecordValue(a[0]));
      if b == [] { assert false; }
      assert (RecordTokens(b) + y)[0] == Val(RecordValue(b[0]));
      assert (RecordTokens(a) + x)[1..] == RecordTokens(a[1..]) + x;
      assert (RecordTokens(b) + y)[1..] == RecordTokens(b[1..]) + y;
      RecordsAgree(a[1..], x, b[1..], y);
      assert b[1..][|a| - 1..] == b[|a|..];
      assert a == [a[0]] + a[1..] && b[..|a|] == [b[0]] + b[1..][..|a| - 1];
    }
  }

  lemma {:induction false} RecordTokensPush(a: seq<Record>, r: Record)
    ensures RecordTokens(a + [r]) == RecordTokens(a) + [Val(RecordValue(r))]
    decreases |a|
  {
    if a == [] {
      assert [] + [r] == [r] && [r][1..] == [];
      assert RecordTokens([r]) == [Val(RecordValue(r))] + RecordTokens([]);
    } else {
      RecordTokensPush(a[1..], r);
      assert (a + [r])[1..] == a[1..] + [r];
    }
  }

  /** What the reader found between the opening and the closing brace is a layout. */
  lemma PartsAreLayout(toks: seq<Token>, before: seq<Field>, records: seq<Record>, rest: seq<Token>, after: seq<Field>)
    requires toks != [] && toks[0] == ObjectOpen
    requires Scan(toks[1..], {}) == AtRecords(before, RecordTokens(records) + rest)
    requires rest != [] && rest[0] == ArrayClose && Scan(rest[1..], SeenAfter(before, {})) == AtEnd(after, [])
    ensures IsLayout(toks, Doc(before, records, after))
  {
    ScanFinds(toks[1..], {});
    ScanFinds(rest[1..], SeenAfter(before, {}));
    assert [ObjectClose] + [] == [ObjectClose];
    assert rest == [ArrayClose] + rest[1..];
    assert toks == [ObjectOpen] + toks[1..];
  }

  /** The header a document's leading fields give, and the one all its fields give. */
  ghost function LeadingHeader(d: Doc): Header
    requires GoodDoc(d)
  {
    Normalized(HeaderOf(NO_HEADER, d.before, {}))
  }

  ghost function WholeHeader(d: Doc): Header
    requires GoodDoc(d)
  {
    HeaderOf(LeadingHeader(d), d.after, SeenAfter(d.before, {}))
  }

  ghost predicate HasSummary(d: Doc)
    requires GoodDoc(d)
  {
    "summary" in SeenAfter(d.after, SeenAfter(d.before, {})) && WholeHeader(d).summary.total >= 0
  }

  /** A document with everything a full read needs. */
  ghost predicate Complete(toks: seq<Token>, d: Doc) { IsLayout(toks, d) && HasSummary(d) }

  /** What a full read returned is what the document says. */
  ghost predicate ReadAs(d: Doc, h: Header, records: seq<Record>, summary: Summary) {
    GoodDoc(d) && h == LeadingHeader(d) && records == d.records && summary == WholeHeader(d).summary
  }

  lemma RecordsStep(read: seq<Record>, r: Record, rest: seq<Token>)
    requires rest != [] && rest[0] == Val(RecordValue(r))
    ensures RecordTokens(read) + rest == RecordTokens(read + [r]) + rest[1..]
  {
    RecordTokensPush(read, r);
    assert rest == [Val(RecordValue(r))] + rest[1..];
  }

  /** The records loop: `read` is what NextRecord returned before it said EOF. */
  method ReadRecords(s: RecordIndexStream, ghost start: Reader) returns (ok: bool, read: seq<Record>, ghost rest: seq<Token>)
    requires s.Valid() && s.View() == start && start.phase == InRecords
    modifies s, s.header, s.header.buf
    ensures start.rest == RecordTokens(read) + rest
    ensures s.header.buf == old(s.header.buf) || fresh(s.header.buf)
    ensures ok ==> s.Valid() && Answers(start.(rest := rest), Eof, s.View())
    ensures !ok ==> Answers(start.(rest := rest), Failed, start)
  {
    read, rest := [], start.rest;
    assert RecordTokens([]) + rest == rest;
    while true
      invariant s.Valid() && s.View() == start.(rest := rest) && start.rest == RecordTokens(read) + rest
      invariant s.header.buf == old(s.header.buf) || fresh(s.header.buf)
      decreases |rest|
    {
      var a := s.NextRecord();
      if a == Failed { return false, read, rest; }
      if a == Eof { return true, read, rest; }
      RecordsStep(read, a.record, rest);
      read, rest := read + [a.record], rest[1..];
    }
  }

  /** The reader once the header is taken from it. */
  ghost function AtFirstRecord(before: seq<Field>, rest: seq<Token>): Reader
    requires GoodFields(before, {})
  {
    Reader(rest, Normalized(HeaderOf(NO_HEADER, before, {})), SeenAfter(before, {}), InRecords)
  }

  ghost predicate SummaryReady(t: Reader) { "summary" in t.seen && t.header.summary.total >= 0 && t.rest == [] }

  /** A read that got to the summary read a complete document. */
  lemma ReadIsSound(toks: seq<Token>, before: seq<Field>, records: seq<Record>, rest: seq<Token>, t: Reader) returns (d: Doc)
    requires toks != [] && toks[0] == ObjectOpen && GoodFields(before, {})
    requires Scan(toks[1..], {}) == AtRecords(before, RecordTokens(records) + rest)
    requires Answers(AtFirstRecord(before, rest), Eof, t) && SummaryReady(t)
    ensures Complete(toks, d) && ReadAs(d, AtFirstRecord(before, rest).header, records, t.header.summary)
  {
    var r := AtFirstRecord(before, rest).(rest := rest[1..]);
    var after, end :| Scan(r.rest, r.seen) == AtEnd(after, end) && GoodFields(after, r.seen) && t == Absorbed(r, after, end, Finished);
    PartsAreLayout(toks, before, records, rest, after);
    d := Doc(before, records, after);
  }

  /** What is left of a complete document after some of its records: another record, or the end. */
  lemma RestOfLayout(toks: seq<Token>, d: Doc, before: seq<Field>, records: seq<Record>, rest: seq<Token>)
    requires Complete(toks, d) && Scan(toks[1..], {}) == AtRecords(before, RecordTokens(records) + rest)
    ensures before == d.before && (rest == Tail(d) || (rest != [] && rest[0].Val? && rest[0].value.RecordValue?))
  {
    HeadOfLayout(d);
    TailOfLayout(d);
    RecordsAgree(records, rest, d.records, Tail(d));
    if |records| == |d.records| {
      assert d.records[|records|..] == [];
      assert RecordTokens([]) + Tail(d) == Tail(d);
    } else {
      assert rest[0] == Val(RecordValue(d.records[|records|]));
    }
  }

  /** On a complete document no step fails, and the summary is ready at the end. */
  lemma ReadIsComplete(toks: seq<Token>, d: Doc, before: seq<Field>, records: seq<Record>, rest: seq<Token>)
    requires Complete(toks, d) && GoodFields(before, {}) && Scan(toks[1..], {}) == AtRecords(before, RecordTokens(records) + rest)
    ensures !Answers(AtFirstRecord(before, rest), Failed, AtFirstRecord(before, rest))
    ensures forall t :: Answers(AtFirstRecord(before, rest), Eof, t) ==> SummaryReady(t)
  {
    RestOfLayout(toks, d, before, records, rest);
    TailOfLayout(d);
  }

  /**
   Header first, then every record, then the final summary. The read succeeds exactly on the
   layouts of complete documents, and the header taken first is still what it was.
   */
  method ReadAll(toks: seq<Token>) returns (ok: bool, h: IndexHeader?, records: seq<Record>, summary: Summary)
    ensures ok ==> h != null && h.Valid() && exists d :: Complete(toks, d) && ReadAs(d, h.Value(), records, summary)
    ensures (exists d :: Complete(toks, d)) ==> ok
  {
    summary, records, h := NO_SUMMARY, [], null;
    if toks == [] || toks[0] != ObjectOpen { return false, h, records, summary; }
    var s := new RecordIndexStream(toks);
    ScanFinds(toks[1..], {});
    h := s.GetHeader();
    if h == null {
      forall d | Complete(toks, d) ensures false { HeadOfLayout(d); }
      return false, h, records, summary;
    }
    ghost var before := Scan(toks[1..], {}).fields;
    ghost var start := s.View();
    assert start == AtFirstRecord(before, start.rest);
    var done;
    ghost var rest;
    done, records, rest := ReadRecords(s, start);
    assert start.(rest := rest) == AtFirstRecord(before, rest);
    forall d | Complete(toks, d)
      ensures done && SummaryReady(s.View())
    {
      ReadIsComplete(toks, d, before, records, rest);
    }
    if !done { return false, h, records, summary; }
    var r := s.FinalSummary();
    if r == Err { return false, h, records, summary; }
    ghost var d := ReadIsSound(toks, before, records, rest, s.View());
    return true, h, records, r.value;
  }

  /** A token stream is the layout of at most one good document. */
  lemma LayoutIsUnique(toks: seq<Token>, d: Doc, e: Doc)
    requires IsLayout(toks, d) && IsLayout(toks, e)
    ensures d == e
  {
    HeadOfLayout(d);
    HeadOfLayout(e);
    TailOfLayout(d);
    TailOfLayout(e);
    RecordsAgree(d.records, Tail(d), e.records, Tail(e));
    RecordsAgree(e.records, Tail(e), d.records, Tail(d));
    assert d.records == e.records[..|e.records|] == e.records;
    assert e.records[|e.records|..] == [];
    assert Tail(d) == RecordTokens([]) + Tail(e) == Tail(e);
  }

  // ---- the writer

  function LeadingFields(h: Header): seq<Field> {
    [Field("version", VersionValue(SCHEMA)), Field("source", SourceValue(FilledSource(h.source))),
     Field("selector", SelectorValue(h.selector)), Field("namespace_contexts", ContextsValue(Writable(h.contexts)))]
  }

  function TrailingFields(h: Header): seq<Field> {
    [Field("summary", SummaryValue(h.summary)), Field("metadata", MetadataValue(h.metadata))]
  }

  /** The document the writer lays out: `fin` is the index given to Prepare. */
  function Written(h: Header, records: seq<Record>, fin: Header): Doc { Doc(LeadingFields(h), records, TrailingFields(fin)) }

  /** The progressive writer, token by token; commas and white space are not tokens. */
  class IndexWriter {
    var out: seq<Token>
    var started: bool
    var prepared: bool

    constructor ()
      ensures out == [] && !started && !prepared
    {
      out, started, prepared := [], false, false;
    }

    method WriteField(key: string, value: Value)
      modifies this`out
      ensures out == old(out) + [Key(key), Val(value)]
    {
      out := out + [Key(key), Val(value)];
    }

    method Start(h: Header) returns (ok: bool)
      modifies this
      ensures ok <==> !old(started) && WritableFormat(h.source)
      ensures ok ==> started && !prepared && out == [ObjectOpen] + (FieldTokens(LeadingFields(h)) + [Key("records"), ArrayOpen])
    {
      if started { return false; }
      started := true;
      if !WritableFormat(h.source) { return false; }
      prepared := false;
      out := [ObjectOpen];
      WriteField("version", VersionValue(SCHEMA));
      WriteField("source", SourceValue(FilledSource(h.source)));
      WriteField("selector", SelectorValue(h.selector));
      WriteField("namespace_contexts", ContextsValue(Writable(h.contexts)));
      LeadingTokens(h);
      out := out + [Key("records"), ArrayOpen];
      return true;
    }

    method AppendRecord(r: Record) returns (ok: bool)
      modifies this`out
      ensures ok <==> started && !prepared
      ensures out == if ok then old(out) + [Val(RecordValue(r))] else old(out)
    {
      if !started || prepared { return false; }
      out := out + [Val(RecordValue(r))];
      return true;
    }

    method Prepare(fin: Header) returns (ok: bool)
      modifies this`out, this`prepared
      ensures ok <==> started
      ensures started && !old(prepared) ==> prepared && out == old(out) + ([ArrayClose] + (FieldTokens(TrailingFields(fin)) + [ObjectClose]))
      ensures !started || old(prepared) ==> out == old(out) && prepared == old(prepared)
    {
      if !started { return false; }
      if prepared { return true; }
      out := out + [ArrayClose];
      WriteField("summary", SummaryValue(fin.summary));
      WriteField("metadata", MetadataValue(fin.metadata));
      TrailingTokens(fin);
      out := out + [ObjectClose];
      prepared := true;
      return true;
    }
  }

  lemma LeadingTokens(h: Header)
    ensures FieldTokens(LeadingFields(h)) ==
      [Key("version"), Val(VersionValue(SCHEMA)), Key("source"), Val(SourceValue(FilledSource(h.source))),
       Key("selector"), Val(SelectorValue(h.selector)), Key("namespace_contexts"), Val(ContextsValue(Writable(h.contexts)))]
  {
    var f := LeadingFields(h);
    assert f[1..] == [f[1], f[2], f[3]] && f[1..][1..] == [f[2], f[3]] && f[1..][1..][1..] == [f[3]] && [f[3]][1..] == [];
    assert FieldTokens([f[3]]) == [Key(f[3].key), Val(f[3].value)] + FieldTokens([]);
    assert FieldTokens([f[2], f[3]]) == [Key(f[2].key), Val(f[2].value)] + FieldTokens([f[3]]);
    assert FieldTokens([f[1], f[2], f[3]]) == [Key(f[1].key), Val(f[1].value)] + FieldTokens([f[2], f[3]]);
  }

  lemma TrailingTokens(h: Header)
    ensures FieldTokens(TrailingFields(h)) == [Key("summary"), Val(SummaryValue(h.summary)), Key("metadata"), Val(MetadataValue(h.metadata))]
  {
    var f := TrailingFields(h);
    assert f[1..] == [f[1]] && [f[1]][1..] == [];
    assert FieldTokens([f[1]]) == [Key(f[1].key), Val(f[1].value)] + FieldTokens([]);
  }

  method WriteIndex(h: Header, records: seq<Record>, fin: Header) returns (ok: bool, toks: seq<Token>)
    ensures ok <==> h.source.format == "xml" || h.source.format == "json"
    ensures ok ==> toks == Layout(Written(h, records, fin))
  {
    toks := [];
    var w := new IndexWriter();
    ok := w.Start(h);
    if !ok { return; }
    ghost var head := w.out;
    AppendAll(w, records);
    ok := w.Prepare(fin);
    toks := w.out;
    LayoutParts(Written(h, records, fin), head);
  }

  method AppendAll(w: IndexWriter, records: seq<Record>)
    requires w.started && !w.prepared
    modifies w`out
    ensures w.out == old(w.out) + RecordTokens(records)
  {
    assert records[..0] == [] && old(w.out) + [] == old(w.out);
    for i := 0 to |records|
      invariant w.out == old(w.out) + RecordTokens(records[..i])
    {
      var ok := w.AppendRecord(records[i]);
      RecordTokensPush(records[..i], records[i]);
      assert records[..i] + [records[i]] == records[..i + 1];
    }
    assert records[..|records|] == records;
  }

  lemma LayoutParts(d: Doc, head: seq<Token>)
    requires head == [ObjectOpen] + (FieldTokens(d.before) + [Key("records"), ArrayOpen])
    ensures Layout(d) == head + RecordTokens(d.records) + ([ArrayClose] + (FieldTokens(d.after) + [ObjectClose]))
  {
  }

  // ---- the round trip

  /** The header a reader must see before the records. */
  function ExpectedHeader(h: Header): Header {
    Header(SCHEMA, FilledSource(h.source), h.selector, Writable(h.contexts), NO_SUMMARY, NO_HEADER.metadata)
  }

  /**
   What a reader sees of a header that was written: the current version, the given selector,
   source and table, with the default offset kind for a blank one and context 0 for no table.
   */
  predicate SeenAs(h: Header, seen: Header) {
    && seen.version == SCHEMA && seen.selector == h.selector
    && seen.source.path == h.source.path && seen.source.sizeBytes == h.source.sizeBytes
    && seen.source.sha256 == h.source.sha256 && seen.source.format == h.source.format
    && seen.source.offsetKind == (if Blank(h.source.offsetKind) then "source_bytes" else h.source.offsetKind)
    && seen.contexts == (if h.contexts == [] then [Context(0, [])] else h.contexts)
  }

  const LEADING := {"version", "source", "selector", "namespace_contexts"}

  lemma LeadingIsGood(h: Header)
    ensures GoodFields(LeadingFields(h), {}) && SeenAfter(LeadingFields(h), {}) == LEADING
    ensures HeaderOf(NO_HEADER, LeadingFields(h), {}) == ExpectedHeader(h)
  {
    var f := LeadingFields(h);
    var f0: seq<Field> := [];
    AppendField(NO_HEADER, f0, f[0], {});
    AppendField(NO_HEADER, f0 + [f[0]], f[1], {});
    AppendField(NO_HEADER, f0 + [f[0]] + [f[1]], f[2], {});
    AppendField(NO_HEADER, f0 + [f[0]] + [f[1]] + [f[2]], f[3], {});
    assert f0 + [f[0]] + [f[1]] + [f[2]] + [f[3]] == f;
  }

  lemma TrailingIsGood(h: Header, g: Header)
    ensures GoodFields(TrailingFields(h), LEADING) && SeenAfter(TrailingFields(h), LEADING) == KNOWN
    ensures HeaderOf(g, TrailingFields(h), LEADING) == g.(summary := h.summary, metadata := h.metadata)
  {
    var f := TrailingFields(h);
    var f0: seq<Field> := [];
    AppendField(g, f0, f[0], LEADING);
    AppendField(g, f0 + [f[0]], f[1], LEADING);
    assert f0 + [f[0]] + [f[1]] == f;
  }

  lemma FilledTwice(s: Source)
    ensures FilledSource(FilledSource(s)) == FilledSource(s)
  {
  }

  lemma WrittenReadsBack(h: Header, records: seq<Record>, fin: Header)
    ensures GoodDoc(Written(h, records, fin))
    ensures LeadingHeader(Written(h, records, fin)) == ExpectedHeader(h) && SeenAs(h, LeadingHeader(Written(h, records, fin)))
    ensures WholeHeader(Written(h, records, fin)).summary == fin.summary
    ensures HasSummary(Written(h, records, fin)) <==> fin.summary.total >= 0
  {
    LeadingIsGood(h);
    FilledTwice(h.source);
    TrailingIsGood(fin, ExpectedHeader(h));
  }

  /**
   Writer and reader undo each other: the reader sees the header, the records in order and
   then the summary that were written, and refuses only a negative declared count.
   */
  method RoundTrip(h: Header, records: seq<Record>, fin: Header) returns (written: bool, ok: bool, header: IndexHeader?, read: seq<Record>, summary: Summary)
    ensures written <==> h.source.format == "xml" || h.source.format == "json"
    ensures written ==> (ok <==> fin.summary.total >= 0)
    ensures ok ==> header != null && header.Valid() && header.Value() == ExpectedHeader(h) && read == records && summary == fin.summary
    ensures ok ==> SeenAs(h, header.Value())
  {
    ok, header, read, summary := false, null, [], NO_SUMMARY;
    var toks;
    written, toks := WriteIndex(h, records, fin);
    if !written { return; }
    ghost var d := Written(h, records, fin);
    WrittenReadsBack(h, records, fin);
    assert IsLayout(toks, d);
    assert fin.summary.total >= 0 ==> Complete(toks, d);
    ok, header, read, summary := ReadAll(toks);
    if ok {
      ghost var e :| Complete(toks, e) && ReadAs(e, header.Value(), read, summary);
      LayoutIsUnique(toks, d, e);
    }
  }
}
