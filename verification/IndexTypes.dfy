/** The record index as values: `internal/index/types.go` and the defaults of `internal/index/semantics.go`. */
module IndexTypes {
  import opened Wrappers
  import opened Text

  datatype Decl = Decl(prefix: string, uri: string)

  datatype Context = Context(id: int, decls: seq<Decl>)

  datatype Source = Source(path: string, sizeBytes: int, sha256: string, offsetKind: string, format: string)

  datatype Selector = Selector(xpath: string, elementName: string)

  datatype Record = Record(num: int, start: int, end: int, size: int, sha256: string, name: string, depth: int, ctxRef: int)

  datatype Summary = Summary(total: int, bytes: int, avg: real, min: int, max: int, p50: int, p95: int, p99: int)

  datatype Metadata = Metadata(generator: string, version: string)

  datatype Header = Header(version: string, source: Source, selector: Selector, contexts: seq<Context>, summary: Summary, metadata: Metadata)

  const SCHEMA := "record-index/v0.1.3"
  const LEGACY_V012 := "record-index/v0.1.2"
  const SOURCE_BYTES := "source_bytes"

  const NO_SUMMARY := Summary(0, 0, 0.0, 0, 0, 0, 0, 0)

  const NO_HEADER := Header("", Source("", 0, "", "", ""), Selector("", ""), [], NO_SUMMARY, Metadata("", ""))

  /** The reserved table: context 0, empty. */
  const EMPTY_TABLE: seq<Context> := [Context(0, [])]

  function FilledSource(s: Source): Source { if Blank(s.offsetKind) then s.(offsetKind := SOURCE_BYTES) else s }

  /** NormalizeRecordIndex. */
  function Normalized(h: Header): Header {
    h.(source := FilledSource(h.source), contexts := if h.version == LEGACY_V012 && h.contexts == [] then EMPTY_TABLE else h.contexts)
  }

  /** WritableNamespaceContexts. */
  function Writable(contexts: seq<Context>): seq<Context> { if contexts == [] then EMPTY_TABLE else contexts }

  /** requireWritableFormat. */
  predicate WritableFormat(s: Source) { s.format == "xml" || s.format == "json" }
}
