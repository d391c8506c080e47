/**
 The namespace table through the stream: what the scan of a source refers to is what a reader
 of the written index looks up.
 */
module IndexReferences {
  import opened IndexTypes
  import opened NamespaceTable
  import IndexStream

  /** Every record carries the reference of its declarations. */
  ghost predicate Referring(records: seq<Record>, refs: seq<nat>) {
    |records| == |refs| && forall i :: 0 <= i < |records| ==> records[i].ctxRef == refs[i]
  }

  /**
   Both passes over a source, the header with its table, the records with their references,
   written and read back: each record that is read resolves, in the header that is read, to the
   declarations the source gave it.
   */
  method ReferencesSurvive(decls: seq<seq<Decl>>, h: Header, found: seq<Record>, fin: Header)
    returns (written: bool, ok: bool, header: IndexStream.IndexHeader?, read: seq<Record>)
    requires |decls| == |found| && AllPlain(decls)
    ensures written <==> h.source.format == "xml" || h.source.format == "json"
    ensures written ==> (ok <==> fin.summary.total >= 0)
    ensures ok ==> header != null && header.Valid() && |read| == |found|
    ensures ok ==> forall i :: 0 <= i < |found| ==> read[i] == found[i].(ctxRef := read[i].ctxRef)
    ensures ok ==> forall i :: 0 <= i < |found| ==> Resolves(header.Value().contexts, read[i].ctxRef, Normal(decls[i]))
  {
    var contexts, refs := TwoPasses(decls);
    var records := With(found, refs);
    var summary;
    written, ok, header, read, summary := IndexStream.RoundTrip(h.(contexts := contexts), records, fin);
  }

  /** The reference is the id of a context with these declarations, and of no other. */
  predicate Resolves(contexts: seq<Context>, ref: int, ds: seq<Decl>) {
    Context(ref, ds) in contexts && forall c :: c in contexts && c.id == ref ==> c.decls == ds
  }

  /** The records with their references. */
  method With(found: seq<Record>, refs: seq<nat>) returns (r: seq<Record>)
    requires |found| == |refs|
    ensures Referring(r, refs) && forall i :: 0 <= i < |r| ==> r[i] == found[i].(ctxRef := refs[i])
  {
    r := [];
    for i := 0 to |found|
      invariant |r| == i && forall j :: 0 <= j < i ==> r[j] == found[j].(ctxRef := refs[j])
    {
      r := r + [found[i].(ctxRef := refs[i])];
    }
  }
}
