/**
 How `BuildTo` and `buildJSONTo` drive their writers: start all, append every record to
 all, prepare all, commit all, complete all, and in every case close the started writers
 in reverse order. The result is all-or-nothing up to the first Complete.
 */
module IndexBuild {
  import opened IndexPublication
  import opened Wrappers

  ghost predicate Distinct(started: seq<JSONIndexWriter?>) {
    forall i, j :: 0 <= i < j < |started| ==> started[i] != started[j]
  }

  /** From the `k`th on, the writers are where their layers say. */
  ghost predicate Linked(started: seq<JSONIndexWriter>, ws: seq<Shape>, k: nat)
    reads started
  {
    |started| == |ws| && Distinct(started) && forall i :: k <= i < |started| ==> started[i].At(ws[i])
  }

  /** Every name of the build is taken, so no fresh name repeats it; `paths` are the final paths. */
  predicate Known(ws: seq<Shape>, paths: set<string>, taken: set<string>) {
    && paths <= taken
    && forall i :: 0 <= i < |ws| ==>
      && ws[i].path in paths
      && (ws[i].tmp != "" ==> ws[i].tmp in taken - paths)
      && (ws[i].backup != "" ==> ws[i].backup in taken - paths)
  }

  /** The names of a layer, among those of the layers below it. */
  predicate Placed(us: seq<Shape>, w: Shape, paths: set<string>, taken: set<string>) {
    && w.path in paths
    && (w.tmp != "" ==> w.tmp in taken - paths && w.tmp != w.backup)
    && (w.backup != "" ==> w.backup in taken - paths)
    && forall i :: 0 <= i < |us| ==>
      && (w.tmp != "" ==> w.tmp != us[i].tmp && w.tmp != us[i].backup)
      && (w.backup != "" ==> w.backup != us[i].tmp && w.backup != us[i].backup)
  }

  /** The layers of the build over the directory `f` it began with, one by one. */
  predicate Stack(f: Files, ws: seq<Shape>, paths: set<string>, taken: set<string>, k: nat) {
    if ws == [] then paths <= taken
    else
      var m := |ws| - 1;
      && Stack(f, ws[..m], paths, taken, k)
      && Placed(ws[..m], ws[m], paths, taken)
      && (k <= m ==> Fits(Layers(f, ws[..m]), ws[m]))
  }

  lemma ApartStep(us: seq<Shape>, w: Shape, paths: set<string>, taken: set<string>)
    requires Apart(us) && Known(us, paths, taken) && Placed(us, w, paths, taken)
    ensures Apart(us + [w]) && Known(us + [w], paths, taken)
  {
    var vs := us + [w];
    forall i, j | 0 <= i < |vs| && 0 <= j < |vs|
      ensures vs[i].tmp != "" ==> vs[i].tmp != vs[j].path && vs[i].tmp != vs[j].backup && (i != j ==> vs[i].tmp != vs[j].tmp)
      ensures vs[i].backup != "" ==> vs[i].backup != vs[j].path && (i != j ==> vs[i].backup != vs[j].backup)
    {
      assert i < |us| ==> vs[i] == us[i];
      assert j < |us| ==> vs[j] == us[j];
    }
  }

  lemma StackedStep(f: Files, us: seq<Shape>, w: Shape, k: nat)
    requires Stacked(f, us, k) && (k <= |us| ==> Fits(Layers(f, us), w))
    ensures Stacked(f, us + [w], k)
  {
    var vs := us + [w];
    forall i | k <= i < |vs|
      ensures Fits(Layers(f, vs[..i]), vs[i])
    {
      assert vs[..i] == us[..i];
      if i == |us| { assert us[..i] == us; }
    }
  }

  lemma {:induction false} StackMeans(f: Files, ws: seq<Shape>, paths: set<string>, taken: set<string>, k: nat)
    requires Stack(f, ws, paths, taken, k)
    ensures Stacked(f, ws, k) && Apart(ws) && Known(ws, paths, taken)
    decreases |ws|
  {
    if ws == [] {
    } else {
      var m := |ws| - 1;
      StackMeans(f, ws[..m], paths, taken, k);
      ApartStep(ws[..m], ws[m], paths, taken);
      StackedStep(f, ws[..m], ws[m], k);
      assert ws[..m] + [ws[m]] == ws;
    }
  }

  lemma ApartPrefix(ws: seq<Shape>, m: nat, paths: set<string>, taken: set<string>)
    requires m < |ws| && Apart(ws) && Known(ws, paths, taken)
    ensures Apart(ws[..m]) && Known(ws[..m], paths, taken) && Placed(ws[..m], ws[m], paths, taken)
  {
    assert ws[m].tmp != "" ==> ws[m].tmp != ws[m].backup;
    forall i | 0 <= i < m
      ensures ws[m].tmp != "" ==> ws[m].tmp != ws[..m][i].tmp && ws[m].tmp != ws[..m][i].backup
      ensures ws[m].backup != "" ==> ws[m].backup != ws[..m][i].tmp && ws[m].backup != ws[..m][i].backup
    {
      assert ws[..m][i] == ws[i];
    }
  }

  lemma StackedPrefix(f: Files, ws: seq<Shape>, m: nat, k: nat)
    requires m < |ws| && Stacked(f, ws, k)
    ensures Stacked(f, ws[..m], k) && (k <= m ==> Fits(Layers(f, ws[..m]), ws[m]))
  {
    forall i | k <= i < m
      ensures Fits(Layers(f, ws[..m][..i]), ws[..m][i])
    {
      assert ws[..m][..i] == ws[..i];
    }
  }

  lemma {:induction false} StackFrom(f: Files, ws: seq<Shape>, paths: set<string>, taken: set<string>, k: nat)
    requires Stacked(f, ws, k) && Apart(ws) && Known(ws, paths, taken)
    ensures Stack(f, ws, paths, taken, k)
    decreases |ws|
  {
    if ws == [] {
    } else {
      var m := |ws| - 1;
      StackedPrefix(f, ws, m, k);
      ApartPrefix(ws, m, paths, taken);
      StackFrom(f, ws[..m], paths, taken, k);
    }
  }

  lemma StackWider(f: Files, ws: seq<Shape>, paths: set<string>, taken: set<string>, more: set<string>, k: nat)
    requires Stack(f, ws, paths, taken, k) && taken <= more
    ensures Stack(f, ws, paths, more, k)
  {
    StackMeans(f, ws, paths, taken, k);
    StackFrom(f, ws, paths, more, k);
  }

  predicate Same(ws: seq<Shape>, body: string) { forall i :: 0 <= i < |ws| ==> ws[i].body == body }

  lemma PushStack(f: Files, ws: seq<Shape>, w: Shape, paths: set<string>, taken: set<string>)
    requires Stack(f, ws, paths, taken, 0) && AllPending(ws, 0) && Same(ws, w.body)
    requires Pending(w) && w.tmp !in taken && w.path in paths && w.path != "" && w.tmp !in Layers(f, ws)
    ensures Stack(f, ws + [w], paths, taken + {w.tmp}, 0) && AllPending(ws + [w], 0) && Same(ws + [w], w.body)
    ensures Layers(f, ws + [w]) == Layers(f, ws)[w.tmp := w.body]
  {
    StackMeans(f, ws, paths, taken, 0);
    StackWider(f, ws, paths, taken, taken + {w.tmp}, 0);
    LayersStep(f, ws, w);
    assert (ws + [w])[..|ws|] == ws;
  }

  /** The writers handed to a build; `paths` are their final paths, which no fresh name repeats. */
  ghost predicate NewWriters(writers: seq<JSONIndexWriter?>, paths: set<string>)
    reads writers
  {
    forall i :: 0 <= i < |writers| && writers[i] != null ==> writers[i].IsNew() && writers[i].path in paths && writers[i].path != ""
  }

  /** A writer not yet started, or one that occurs twice and has been. */
  ghost predicate Startable(writers: seq<JSONIndexWriter?>, started: seq<JSONIndexWriter>, paths: set<string>)
    reads writers
  {
    forall i :: 0 <= i < |writers| && writers[i] != null ==>
      (writers[i].IsNew() || (writers[i] in started && writers[i].started)) && writers[i].path in paths && writers[i].path != ""
  }

  lemma StartableStep(writers: seq<JSONIndexWriter?>, started: seq<JSONIndexWriter>, writer: JSONIndexWriter, paths: set<string>)
    requires writer.started && writer.path in paths && writer.path != ""
    requires forall i :: 0 <= i < |writers| && writers[i] != null && writers[i] != writer ==>
      (writers[i].IsNew() || (writers[i] in started && writers[i].started)) && writers[i].path in paths && writers[i].path != ""
    ensures Startable(writers, started + [writer], paths)
  {
  }

  ghost predicate AllRecording(started: seq<JSONIndexWriter>, seen: bool)
    reads started
  {
    forall i :: 0 <= i < |started| ==> started[i].Recording(seen)
  }

  ghost predicate Prefix(started: seq<JSONIndexWriter>, writers: seq<JSONIndexWriter?>) {
    |started| <= |writers| && forall i :: 0 <= i < |started| ==> started[i] == writers[i]
  }

  lemma PushWriter(writers: seq<JSONIndexWriter?>, started: seq<JSONIndexWriter>, ws: seq<Shape>, writer: JSONIndexWriter, w: Shape)
    requires Linked(started, ws, 0) && AllRecording(started, false) && Prefix(started, writers)
    requires |started| < |writers| && writers[|started|] == writer && writer !in started && writer.At(w) && writer.Recording(false)
    ensures Linked(started + [writer], ws + [w], 0) && AllRecording(started + [writer], false) && Prefix(started + [writer], writers)
  {
  }

  /** Everything a build that has not begun to commit maintains. */
  ghost predicate Writing(dir: Directory, started: seq<JSONIndexWriter>, ws: seq<Shape>, f: Files, paths: set<string>)
    reads dir, started
  {
    Linked(started, ws, 0) && Stack(f, ws, paths, dir.taken, 0) && AllPending(ws, 0) && dir.files == Layers(f, ws)
  }

  /** One turn of the start loop; `unopened` is everything not yet tried. */
  method StartNext(dir: Directory, writers: seq<JSONIndexWriter?>, started: seq<JSONIndexWriter>, header: string, writable: bool,
                   ghost was: seq<Shape>, ghost f: Files, ghost paths: set<string>)
    returns (ok: bool, ghost undone: bool, more: seq<JSONIndexWriter>, ghost ws: seq<Shape>)
    requires |started| < |writers| && Prefix(started, writers) && AllRecording(started, false) && Startable(writers, started, paths)
    requires Writing(dir, started, was, f, paths) && Same(was, header)
    modifies dir, writers
    ensures Linked(more, ws, 0) && Stack(f, ws, paths, dir.taken, 0) && AllPending(ws, 0)
    ensures AllRecording(more, false) && Prefix(more, writers)
    ensures undone ==> dir.files == Layers(f, ws)
    ensures ok ==> undone && |more| == |started| + 1 && Same(ws, header) && Startable(writers, more, paths)
    ensures dir.Coming() <= old(dir.Coming())
    ensures ok <==> writers[|started|] != null && writers[|started|] !in started && writable && dir.Coming() == old(dir.Coming())
    ensures !undone ==> dir.Coming() + (if writable then 1 else 0) < old(dir.Coming())
  {
    more, ws := started, was;
    if writers[|started|] == null { return false, true, more, ws; }
    var writer: JSONIndexWriter := writers[|started|];
    ghost var taken := dir.taken;
    ghost var w;
    assert writer.started <==> writer in started;
    ok, undone, w := writer.Start(dir, header, writable);
    if ok {
      PushStack(f, ws, w, paths, taken);
      PushWriter(writers, started, ws, writer, w);
      StartableStep(writers, started, writer, paths);
      more, ws := started + [writer], ws + [w];
    } else {
      StackWider(f, ws, paths, taken, dir.taken, 0);
    }
  }

  /** The writers that a build can start: none is nil, none is listed twice, and the format can be written. */
  ghost predicate Acceptable(writers: seq<JSONIndexWriter?>, writable: bool) {
    null !in writers && Distinct(writers) && (writers != [] ==> writable)
  }

  lemma AcceptableNext(writers: seq<JSONIndexWriter?>, started: seq<JSONIndexWriter>, writable: bool)
    requires |started| < |writers| && Prefix(started, writers)
    ensures Acceptable(writers, writable) ==> writers[|started|] != null && writers[|started|] !in started && writable
  {
  }

  lemma AcceptableAll(writers: seq<JSONIndexWriter?>, started: seq<JSONIndexWriter>)
    requires Prefix(started, writers) && |started| == |writers| && Distinct(started)
    ensures null !in writers && Distinct(writers)
  {
    assert forall i :: 0 <= i < |writers| ==> writers[i] == started[i];
  }

  method StartAll(dir: Directory, writers: seq<JSONIndexWriter?>, header: string, writable: bool, ghost paths: set<string>)
    returns (ok: bool, ghost undone: bool, started: seq<JSONIndexWriter>, ghost ws: seq<Shape>)
    requires NewWriters(writers, paths) && paths <= dir.taken
    modifies dir, writers
    ensures Linked(started, ws, 0) && Stack(old(dir.files), ws, paths, dir.taken, 0) && AllPending(ws, 0)
    ensures AllRecording(started, false) && Prefix(started, writers)
    ensures undone ==> dir.files == Layers(old(dir.files), ws)
    ensures ok ==> undone && |started| == |writers| && Same(ws, header)
    ensures dir.Coming() <= old(dir.Coming())
    ensures ok <==> Acceptable(writers, writable) && dir.Coming() == old(dir.Coming())
    ensures !undone ==> dir.Coming() + (if Acceptable(writers, writable) then 1 else 0) < old(dir.Coming())
  {
    ghost var f := dir.files;
    started, ws, ok, undone := [], [], true, true;
    while |started| < |writers|
      invariant ok && undone && Prefix(started, writers) && AllRecording(started, false) && Startable(writers, started, paths)
      invariant Writing(dir, started, ws, f, paths) && Same(ws, header)
      invariant dir.Coming() == old(dir.Coming()) && (started != [] ==> writable)
    {
      AcceptableNext(writers, started, writable);
      ok, undone, started, ws := StartNext(dir, writers, started, header, writable, ws, f, paths);
      if !ok { return; }
    }
    AcceptableAll(writers, started);
  }

  /** A writer's own file: where it is, and what changing it does to the stack. */
  lemma WriterFile(dir: Directory, started: seq<JSONIndexWriter>, ws: seq<Shape>, f: Files, paths: set<string>, i: nat)
    requires i < |started| && Writing(dir, started, ws, f, paths)
    ensures started[i].tmpPath in dir.files && dir.files[started[i].tmpPath] == ws[i].body
    ensures started[i].tmpPath == ws[i].tmp
  {
    StackMeans(f, ws, paths, dir.taken, 0);
    WriteOnStack(f, ws, i, "");
  }

  lemma WrittenStack(f: Files, ws: seq<Shape>, i: nat, body: string, paths: set<string>, taken: set<string>)
    requires i < |ws| && Stack(f, ws, paths, taken, 0) && AllPending(ws, 0)
    ensures var vs := ws[i := ws[i].(body := body)];
      Stack(f, vs, paths, taken, 0) && AllPending(vs, 0) && Layers(f, vs) == Layers(f, ws)[ws[i].tmp := body]
  {
    StackMeans(f, ws, paths, taken, 0);
    WriteOnStack(f, ws, i, body);
    StackFrom(f, ws[i := ws[i].(body := body)], paths, taken, 0);
  }

  /** The writer appended to is not one of the others. */
  ghost predicate Seen(started: seq<JSONIndexWriter>, i: nat, before: bool, after: bool)
    reads started
  {
    forall j :: 0 <= j < |started| ==> started[j].Recording(if j < i then after else before)
  }

  predicate Bodies(ws: seq<Shape>, i: nat, done: string, todo: string) {
    forall j :: 0 <= j < |ws| ==> ws[j].body == if j < i then done else todo
  }

  lemma BodiesStep(ws: seq<Shape>, i: nat, w: Shape, done: string, todo: string)
    requires i < |ws| && Bodies(ws, i, done, todo)
    ensures w.body == done ==> Bodies(ws[i := w], i + 1, done, todo)
  {
  }

  /** The others are where their layers say. */
  ghost predicate OthersLinked(started: seq<JSONIndexWriter>, ws: seq<Shape>, i: nat, k: nat)
    reads started
  {
    |started| == |ws| && Distinct(started) && forall j :: k <= j < |started| && j != i ==> started[j].At(ws[j])
  }

  lemma LinkedStep(started: seq<JSONIndexWriter>, ws: seq<Shape>, i: nat, w: Shape, k: nat)
    requires k <= i < |ws| && OthersLinked(started, ws, i, k) && started[i].At(w)
    ensures Linked(started, ws[i := w], k)
  {
  }

  lemma SeenStep(started: seq<JSONIndexWriter>, i: nat, before: bool)
    requires i < |started| && started[i].Recording(true)
    requires forall j :: 0 <= j < |started| && j != i ==> started[j].Recording(if j < i then true else before)
    ensures Seen(started, i + 1, before, true)
  {
  }

  /** A writer has changed its own file, and nothing else has changed. */
  lemma WriteStep(dir: Directory, started: seq<JSONIndexWriter>, ws: seq<Shape>, i: nat, body: string, f: Files, paths: set<string>)
    requires i < |ws| && OthersLinked(started, ws, i, 0) && Stack(f, ws, paths, dir.taken, 0) && AllPending(ws, 0)
    requires started[i].At(ws[i].(body := body)) && dir.files == Layers(f, ws)[ws[i].tmp := body]
    ensures Writing(dir, started, ws[i := ws[i].(body := body)], f, paths)
  {
    LinkedStep(started, ws, i, ws[i].(body := body), 0);
    WrittenStack(f, ws, i, body, paths, dir.taken);
  }

  function TextOf(record: Option<string>): string { if record.Some? then record.value else "" }

  /** The records as encoded. */
  function Texts(records: seq<Option<string>>): (r: seq<string>)
    ensures |r| == |records| && forall i :: 0 <= i < |r| ==> r[i] == TextOf(records[i])
  {
    seq(|records|, i requires 0 <= i < |records| => TextOf(records[i]))
  }

  /** No writer is given a record that the encoder refuses. */
  ghost predicate Encoded(writers: seq<JSONIndexWriter?>, records: seq<Option<string>>) { writers != [] ==> None !in records }

  lemma EncodedStep(writers: seq<JSONIndexWriter?>, records: seq<Option<string>>, n: nat)
    requires n < |records|
    ensures Encoded(writers, records[..n + 1]) <==> Encoded(writers, records[..n]) && (writers != [] ==> records[n].Some?)
    ensures Encoded(writers, records) ==> Encoded(writers, records[..n + 1])
  {
    assert records[..n + 1] == records[..n] + [records[n]];
  }

  method AppendTo(dir: Directory, started: seq<JSONIndexWriter>, i: nat, record: Option<string>, ghost seen: bool, ghost body: string,
                  ghost was: seq<Shape>, ghost f: Files, ghost paths: set<string>)
    returns (ok: bool, ghost ws: seq<Shape>)
    requires i < |started| && Writing(dir, started, was, f, paths) && Seen(started, i, seen, true)
    requires Bodies(was, i, body + Piece(TextOf(record), seen), body)
    modifies dir`files, dir`faults, started[i]
    ensures Writing(dir, started, ws, f, paths)
    ensures ok ==> Bodies(ws, i + 1, body + Piece(TextOf(record), seen), body) && Seen(started, i + 1, seen, true)
    ensures dir.Coming() <= old(dir.Coming())
    ensures ok <==> record.Some? && dir.Coming() == old(dir.Coming())
  {
    WriterFile(dir, started, was, f, paths, i);
    assert started[i].Recording(seen);
    ok := started[i].AppendRecord(dir, record);
    if ok { SeenStep(started, i, seen); }
    ghost var w := was[i].(body := dir.files[started[i].tmpPath]);
    BodiesStep(was, i, w, body + Piece(TextOf(record), seen), body);
    WriteStep(dir, started, was, i, w.body, f, paths);
    ws := was[i := w];
  }

  method AppendToAll(dir: Directory, started: seq<JSONIndexWriter>, record: Option<string>, ghost seen: bool, ghost body: string,
                     ghost was: seq<Shape>, ghost f: Files, ghost paths: set<string>)
    returns (ok: bool, ghost ws: seq<Shape>)
    requires Writing(dir, started, was, f, paths) && Bodies(was, 0, "", body) && Seen(started, 0, seen, seen)
    modifies dir`files, dir`faults, started
    ensures Writing(dir, started, ws, f, paths)
    ensures ok ==> Bodies(ws, 0, "", body + Piece(TextOf(record), seen)) && Seen(started, 0, true, true)
    ensures dir.Coming() <= old(dir.Coming())
    ensures ok <==> (started != [] ==> record.Some?) && dir.Coming() == old(dir.Coming())
  {
    ws, ok := was, true;
    ghost var next := body + Piece(TextOf(record), seen);
    for i := 0 to |started|
      invariant ok && Writing(dir, started, ws, f, paths) && Bodies(ws, i, next, body) && Seen(started, i, seen, true)
      invariant dir.Coming() == old(dir.Coming()) && (i > 0 ==> record.Some?)
    {
      ok, ws := AppendTo(dir, started, i, record, seen, body, ws, f, paths);
      if !ok { return; }
    }
  }

  /** The scan loop: every record goes to every writer. */
  method AppendRecords(dir: Directory, started: seq<JSONIndexWriter>, records: seq<Option<string>>, header: string,
                       ghost was: seq<Shape>, ghost f: Files, ghost paths: set<string>)
    returns (ok: bool, ghost ws: seq<Shape>)
    requires Writing(dir, started, was, f, paths) && Bodies(was, 0, "", header) && Seen(started, 0, false, false)
    modifies dir`files, dir`faults, started
    ensures Writing(dir, started, ws, f, paths)
    ensures ok ==> Bodies(ws, 0, "", header + Joined(Texts(records))) && Seen(started, 0, records != [], records != [])
    ensures dir.Coming() <= old(dir.Coming())
    ensures ok <==> Encoded(started, records) && dir.Coming() == old(dir.Coming())
  {
    ws, ok := was, true;
    ghost var texts := Texts(records);
    assert header + Joined(texts[..0]) == header;
    for n := 0 to |records|
      invariant ok && Writing(dir, started, ws, f, paths)
      invariant Bodies(ws, 0, "", header + Joined(texts[..n])) && Seen(started, 0, n > 0, n > 0)
      invariant dir.Coming() == old(dir.Coming()) && Encoded(started, records[..n])
    {
      ghost var body := header + Joined(texts[..n]);
      EncodedStep(started, records, n);
      ok, ws := AppendToAll(dir, started, records[n], n > 0, body, ws, f, paths);
      if !ok { return; }
      JoinedStep(header, texts, n);
    }
    assert records[..|records|] == records && texts[..|records|] == texts;
  }

  lemma JoinedStep(header: string, records: seq<string>, n: nat)
    requires n < |records|
    ensures header + Joined(records[..n]) + Piece(records[n], n > 0) == header + Joined(records[..n + 1])
  {
    assert records[..n + 1][..n] == records[..n];
  }

  /** Writers before `i` are prepared, the others still record. */
  ghost predicate PreparedTo(started: seq<JSONIndexWriter>, i: nat, seen: bool)
    reads started
  {
    forall j :: 0 <= j < |started| ==> if j < i then started[j].prepared && !started[j].open else started[j].Recording(seen)
  }

  method PrepareNext(dir: Directory, started: seq<JSONIndexWriter>, i: nat, trailer: string, ghost seen: bool, ghost body: string,
                     ghost was: seq<Shape>, ghost f: Files, ghost paths: set<string>)
    returns (ok: bool, ghost ws: seq<Shape>)
    requires i < |started| && Writing(dir, started, was, f, paths) && PreparedTo(started, i, seen)
    requires Bodies(was, i, body + Closing(seen) + trailer, body)
    modifies dir`files, dir`faults, started[i]
    ensures Writing(dir, started, ws, f, paths)
    ensures ok ==> Bodies(ws, i + 1, body + Closing(seen) + trailer, body) && PreparedTo(started, i + 1, seen)
    ensures dir.Coming() <= old(dir.Coming())
    ensures ok <==> dir.Coming() == old(dir.Coming())
  {
    WriterFile(dir, started, was, f, paths, i);
    assert started[i].Recording(seen);
    ok := started[i].Prepare(dir, trailer);
    ghost var w := was[i].(body := dir.files[started[i].tmpPath]);
    BodiesStep(was, i, w, body + Closing(seen) + trailer, body);
    WriteStep(dir, started, was, i, w.body, f, paths);
    ws := was[i := w];
  }

  method PrepareAll(dir: Directory, started: seq<JSONIndexWriter>, trailer: string, ghost seen: bool, ghost body: string,
                    ghost was: seq<Shape>, ghost f: Files, ghost paths: set<string>)
    returns (ok: bool, ghost ws: seq<Shape>)
    requires Writing(dir, started, was, f, paths) && Bodies(was, 0, "", body) && Seen(started, 0, seen, seen)
    modifies dir`files, dir`faults, started
    ensures Writing(dir, started, ws, f, paths)
    ensures ok ==> Bodies(ws, 0, "", body + Closing(seen) + trailer) && PreparedTo(started, |started|, seen)
    ensures dir.Coming() <= old(dir.Coming())
    ensures ok <==> dir.Coming() == old(dir.Coming())
  {
    ws, ok := was, true;
    for i := 0 to |started|
      invariant ok && Writing(dir, started, ws, f, paths) && PreparedTo(started, i, seen)
      invariant Bodies(ws, i, body + Closing(seen) + trailer, body)
      invariant dir.Coming() == old(dir.Coming())
    {
      ok, ws := PrepareNext(dir, started, i, trailer, seen, body, ws, f, paths);
      if !ok { return; }
    }
  }

  /** Everything a build maintains while it commits. */
  ghost predicate Committing(dir: Directory, started: seq<JSONIndexWriter>, ws: seq<Shape>, f: Files, paths: set<string>)
    reads dir, started
  {
    Linked(started, ws, 0) && Stack(f, ws, paths, dir.taken, 0) && dir.files == Layers(f, ws)
  }

  predicate CommittedTo(ws: seq<Shape>, i: nat, body: string) {
    forall j :: 0 <= j < |ws| ==> ws[j].body == body && if j < i then ws[j].published && (ws[j].backup != "" ==> ws[j].moved) else Pending(ws[j])
  }

  ghost predicate AllPrepared(started: seq<JSONIndexWriter>)
    reads started
  {
    forall j :: 0 <= j < |started| ==> started[j].prepared && !started[j].open
  }

  function CommittedShape(w: Shape, d: Files, backup: string): Shape {
    w.(tmp := "", backup := if w.path in d then backup else "", moved := w.path in d, published := true)
  }

  /** The layer a failed Commit leaves, by what it did to the directory and to its backup name. */
  function FailedShape(w: Shape, backup: string, moved: bool): Shape { w.(backup := backup, moved := moved) }

  lemma NewBackupFrom(f: Files, ws: seq<Shape>, paths: set<string>, taken: set<string>, backup: string)
    requires Stack(f, ws, paths, taken, 0) && backup !in taken && backup != "" && backup !in Layers(f, ws)
    ensures NewBackup(ws, Layers(f, ws), backup)
  {
    StackMeans(f, ws, paths, taken, 0);
  }

  lemma CommitStack(f: Files, ws: seq<Shape>, i: nat, backup: string, body: string, paths: set<string>, taken: set<string>)
    requires i < |ws| && Stack(f, ws, paths, taken, 0) && CommittedTo(ws, i, body)
    requires backup !in taken && backup != "" && backup !in Layers(f, ws)
    ensures ws[i].tmp in Layers(f, ws)
    ensures var vs := ws[i := CommittedShape(ws[i], Layers(f, ws), backup)];
      Stack(f, vs, paths, taken + {backup}, 0) && Layers(f, vs) == Swapped(Layers(f, ws), ws[i].path, ws[i].tmp, backup)
  {
    NewBackupFrom(f, ws, paths, taken, backup);
    StackMeans(f, ws, paths, taken, 0);
    CommitOnStack(f, ws, i, backup);
    StackFrom(f, ws[i := CommittedShape(ws[i], Layers(f, ws), backup)], paths, taken + {backup}, 0);
  }

  lemma FailedStack(f: Files, ws: seq<Shape>, i: nat, backup: string, body: string, moved: bool, paths: set<string>, taken: set<string>)
    requires i < |ws| && Stack(f, ws, paths, taken, 0) && CommittedTo(ws, i, body) && (moved ==> ws[i].path in Layers(f, ws))
    requires backup !in taken && backup != "" && backup !in Layers(f, ws)
    ensures var vs := ws[i := FailedShape(ws[i], backup, moved)];
      Stack(f, vs, paths, taken + {backup}, 0) && Layers(f, vs) == if moved then MovedAway(Layers(f, ws), ws[i].path, backup) else Layers(f, ws)
  {
    NewBackupFrom(f, ws, paths, taken, backup);
    StackMeans(f, ws, paths, taken, 0);
    if moved {
      MovedOnStack(f, ws, i, backup);
    } else {
      RestoredOnStack(f, ws, i, backup);
      assert FailedShape(ws[i], backup, moved) == ws[i].(backup := backup);
    }
    StackFrom(f, ws[i := FailedShape(ws[i], backup, moved)], paths, taken + {backup}, 0);
  }

  lemma TmpIsKnown(f: Files, ws: seq<Shape>, i: nat, paths: set<string>, taken: set<string>)
    requires i < |ws| && Stack(f, ws, paths, taken, 0) && Pending(ws[i])
    ensures ws[i].tmp != ws[i].path && ws[i].tmp in taken && ws[i].tmp in Layers(f, ws)
  {
    StackMeans(f, ws, paths, taken, 0);
    OwnedIsUntouched(ws, i, ws[i].tmp);
    StackAt(f, ws, i);
    LayersFrame(Layer(Layers(f, ws[..i]), ws[i]), ws[i + 1..], ws[i].tmp);
  }

  /** The layer that a Commit leaves: `ok`, the new directory and the writer's backup name decide it. */
  lemma CommitOutcome(f: Files, ws: seq<Shape>, i: nat, backup: string, body: string, paths: set<string>, taken: set<string>,
                      ok: bool, d: Files, named: string) returns (w: Shape)
    requires i < |ws| && Stack(f, ws, paths, taken, 0) && CommittedTo(ws, i, body)
    requires backup !in taken && backup != "" && backup !in Layers(f, ws)
    requires ok ==> ws[i].tmp in Layers(f, ws) && d == Swapped(Layers(f, ws), ws[i].path, ws[i].tmp, backup)
    requires ok ==> named == if ws[i].path in Layers(f, ws) then backup else ""
    requires !ok ==>
      || (d == Layers(f, ws) && named in {"", backup})
      || (ws[i].path in Layers(f, ws) && named == backup && d == MovedAway(Layers(f, ws), ws[i].path, backup))
    ensures Stack(f, ws[i := w], paths, taken + {backup}, 0) && Layers(f, ws[i := w]) == d
    ensures ok && w.backup != "" ==> w.moved
    ensures w.path == ws[i].path && w.body == body && w.backup == named && w.published == ok && w.tmp == if ok then "" else ws[i].tmp
  {
    if ok {
      CommitStack(f, ws, i, backup, body, paths, taken);
      w := CommittedShape(ws[i], Layers(f, ws), backup);
    } else if named == "" {
      StackWider(f, ws, paths, taken, taken + {backup}, 0);
      w := ws[i];
      assert ws[i := w] == ws;
    } else {
      var moved := d != Layers(f, ws);
      FailedStack(f, ws, i, backup, body, moved, paths, taken);
      w := FailedShape(ws[i], backup, moved);
    }
  }

  method CommitNext(dir: Directory, started: seq<JSONIndexWriter>, i: nat, ghost body: string,
                    ghost was: seq<Shape>, ghost f: Files, ghost paths: set<string>)
    returns (ok: bool, ghost ws: seq<Shape>)
    requires i < |started| && Committing(dir, started, was, f, paths) && CommittedTo(was, i, body) && AllPrepared(started)
    modifies dir, started[i]
    ensures Committing(dir, started, ws, f, paths) && AllPrepared(started)
    ensures ok ==> CommittedTo(ws, i + 1, body)
    ensures dir.Coming() <= old(dir.Coming())
    ensures ok <==> dir.Coming() == old(dir.Coming())
  {
    ghost var taken := dir.taken;
    TmpIsKnown(f, was, i, paths, taken);
    ghost var backup;
    ok, backup := started[i].Commit(dir);
    ghost var w := CommitOutcome(f, was, i, backup, body, paths, taken, ok, dir.files, started[i].backupPath);
    LinkedStep(started, was, i, w, 0);
    ws := was[i := w];
  }

  method CommitAll(dir: Directory, started: seq<JSONIndexWriter>, ghost body: string,
                   ghost was: seq<Shape>, ghost f: Files, ghost paths: set<string>)
    returns (ok: bool, ghost ws: seq<Shape>)
    requires Committing(dir, started, was, f, paths) && CommittedTo(was, 0, body) && AllPrepared(started)
    modifies dir, started
    ensures Committing(dir, started, ws, f, paths)
    ensures ok ==> CommittedTo(ws, |started|, body)
    ensures dir.Coming() <= old(dir.Coming())
    ensures ok <==> dir.Coming() == old(dir.Coming())
  {
    ws, ok := was, true;
    for i := 0 to |started|
      invariant ok && Committing(dir, started, ws, f, paths) && CommittedTo(ws, i, body) && AllPrepared(started)
      invariant dir.Coming() == old(dir.Coming())
    {
      ok, ws := CommitNext(dir, started, i, body, ws, f, paths);
      if !ok { return; }
    }
  }

  // ---- complete and close

  /** Writers before `k` are completed; they no longer roll back. */
  ghost predicate CompletedTo(started: seq<JSONIndexWriter>, k: nat)
    reads started
  {
    forall j :: 0 <= j < |started| && j < k ==> started[j].completed && started[j].tmpPath == "" && !started[j].open
  }

  /** Everything a build maintains from its first Complete on. */
  ghost predicate Completing(started: seq<JSONIndexWriter>, ws: seq<Shape>, f: Files, paths: set<string>, taken: set<string>, k: nat)
    reads started
  {
    Linked(started, ws, k) && Stack(f, ws, paths, taken, k) && CompletedTo(started, k)
  }

  predicate DoneTo(ws: seq<Shape>, i: nat, body: string, fp: seq<string>) {
    && |ws| == |fp|
    && forall j :: 0 <= j < |ws| ==>
      && ws[j].path == fp[j] && ws[j].published && ws[j].body == body
      && (ws[j].backup != "" ==> ws[j].moved) && (j < i ==> ws[j] == Done(ws[j]))
  }

  /** A committed writer that has a backup to remove. */
  predicate HasBackup(base: Files, w: Shape) { w.moved && w.published && Fits(base, w) }

  lemma CompleteStack(f: Files, ws: seq<Shape>, i: nat, body: string, fp: seq<string>, paths: set<string>, taken: set<string>)
    requires i < |ws| && Stack(f, ws, paths, taken, i) && DoneTo(ws, i, body, fp)
    ensures Stack(f, ws, paths, taken, i + 1) && ws[i].tmp == "" && (ws[i].backup != "" ==> HasBackup(Layers(f, ws[..i]), ws[i]))
    ensures var vs := ws[i := Done(ws[i])];
      && Stack(f, vs, paths, taken, i + 1) && DoneTo(vs, i + 1, body, fp)
      && Layers(f, vs) == if ws[i].backup != "" then Layers(f, ws) - {ws[i].backup} else Layers(f, ws)
  {
    StackMeans(f, ws, paths, taken, i);
    assert Fits(Layers(f, ws[..i]), ws[i]);
    CompleteOnStack(f, ws, i);
    StackFrom(f, ws, paths, taken, i + 1);
    KnownDone(ws, i, paths, taken);
    StackFrom(f, ws[i := Done(ws[i])], paths, taken, i + 1);
    DoneStep(ws, i, body, fp);
  }

  lemma KnownDone(ws: seq<Shape>, i: nat, paths: set<string>, taken: set<string>)
    requires i < |ws| && Known(ws, paths, taken)
    ensures Known(ws[i := Done(ws[i])], paths, taken)
  {
  }

  lemma DoneStep(ws: seq<Shape>, i: nat, body: string, fp: seq<string>)
    requires i < |ws| && DoneTo(ws, i, body, fp)
    ensures DoneTo(ws[i := Done(ws[i])], i + 1, body, fp)
  {
  }

  predicate SamePaths(ws: seq<Shape>, paths: seq<string>) { |ws| == |paths| && forall i :: 0 <= i < |ws| ==> ws[i].path == paths[i] }

  method CompleteNext(dir: Directory, started: seq<JSONIndexWriter>, i: nat, ghost body: string, ghost fp: seq<string>,
                      ghost was: seq<Shape>, ghost f: Files, ghost paths: set<string>)
    returns (ok: bool, ghost ws: seq<Shape>)
    requires i < |started| && Halfway(dir, started, was, f, paths, i, body, fp)
    modifies dir`files, dir`faults, started[i]
    ensures ok ==> Halfway(dir, started, ws, f, paths, i + 1, body, fp)
    ensures !ok ==> Stopped(dir, started, ws, f, paths, i + 1, body, fp)
    ensures dir.Coming() <= old(dir.Coming())
    ensures ok <==> dir.Coming() == old(dir.Coming())
  {
    CompleteStack(f, was, i, body, fp, paths, dir.taken);
    ok := started[i].Complete(dir);
    ws := if ok then was[i := Done(was[i])] else was;
    assert Linked(started, ws, i + 1);
  }

  ghost predicate Halfway(dir: Directory, started: seq<JSONIndexWriter>, ws: seq<Shape>, f: Files, paths: set<string>, k: nat,
                          body: string, fp: seq<string>)
    reads dir, started
  {
    Completing(started, ws, f, paths, dir.taken, k) && DoneTo(ws, k, body, fp) && dir.files == Layers(f, ws)
  }

  /** The `k`th Complete failed: that writer is completed too, but its backup is still there. */
  ghost predicate Stopped(dir: Directory, started: seq<JSONIndexWriter>, ws: seq<Shape>, f: Files, paths: set<string>, k: nat,
                          body: string, fp: seq<string>)
    reads dir, started
  {
    && 0 < k <= |started| && Completing(started, ws, f, paths, dir.taken, k) && DoneTo(ws, k - 1, body, fp) && dir.files == Layers(f, ws)
    && HasBackup(Layers(f, ws[..k - 1]), ws[k - 1]) && started[k - 1].backupPath == ws[k - 1].backup
  }

  lemma BeginComplete(dir: Directory, started: seq<JSONIndexWriter>, body: string, fp: seq<string>, ws: seq<Shape>, f: Files, paths: set<string>)
    requires Committing(dir, started, ws, f, paths) && CommittedTo(ws, |started|, body) && SamePaths(ws, fp)
    ensures Halfway(dir, started, ws, f, paths, 0, body, fp)
  {
  }

  /** Complete in order; `k` writers are completed, the last of them possibly with its backup left. */
  method CompleteAll(dir: Directory, started: seq<JSONIndexWriter>, ghost body: string, ghost fp: seq<string>,
                     ghost was: seq<Shape>, ghost f: Files, ghost paths: set<string>)
    returns (ok: bool, k: nat, ghost ws: seq<Shape>)
    requires Committing(dir, started, was, f, paths) && CommittedTo(was, |started|, body) && SamePaths(was, fp)
    modifies dir`files, dir`faults, started
    ensures ok ==> k == |started| && Halfway(dir, started, ws, f, paths, k, body, fp)
    ensures !ok ==> Stopped(dir, started, ws, f, paths, k, body, fp)
    ensures dir.Coming() <= old(dir.Coming())
    ensures ok <==> dir.Coming() == old(dir.Coming())
  {
    ws, ok, k := was, true, 0;
    BeginComplete(dir, started, body, fp, ws, f, paths);
    while k < |started|
      invariant ok && k <= |started| && Halfway(dir, started, ws, f, paths, k, body, fp)
      invariant dir.Coming() == old(dir.Coming())
    {
      ok, ws := CompleteNext(dir, started, k, body, fp, ws, f, paths);
      k := k + 1;
      if !ok { return; }
    }
  }

  lemma PeelTop(f: Files, ws: seq<Shape>, i: nat, paths: set<string>, taken: set<string>, k: nat)
    requires k <= i < |ws| && Stack(f, ws, paths, taken, k)
    ensures Peeled(Layers(f, ws[..i + 1]), Shape(ws[i].path, ws[i].tmp, ws[i].backup, "", false, ws[i].published)) == Layers(f, ws[..i])
  {
    FitsAt(f, ws, i, paths, taken, k);
    assert ws[..i + 1] == ws[..i] + [ws[i]];
    LayersStep(f, ws[..i], ws[i]);
    PeelUndoesLayer(Layers(f, ws[..i]), ws[i]);
  }

  lemma FitsAt(f: Files, ws: seq<Shape>, i: nat, paths: set<string>, taken: set<string>, k: nat)
    requires k <= i < |ws| && Stack(f, ws, paths, taken, k)
    ensures Fits(Layers(f, ws[..i]), ws[i])
  {
    StackMeans(f, ws, paths, taken, k);
  }

  /** What closing the top writer removes is there. */
  lemma TopHasFiles(f: Files, ws: seq<Shape>, i: nat, paths: set<string>, taken: set<string>, k: nat)
    requires k <= i < |ws| && Stack(f, ws, paths, taken, k)
    ensures ws[i].published ==> ws[i].tmp == "" && ws[i].path in Layers(f, ws[..i + 1])
    ensures ws[i].tmp != "" ==> ws[i].tmp in Layers(f, ws[..i + 1]) && (ws[i].backup != "" ==> ws[i].tmp != ws[i].backup)
  {
    FitsAt(f, ws, i, paths, taken, k);
    assert ws[..i + 1] == ws[..i] + [ws[i]];
    LayersStep(f, ws[..i], ws[i]);
  }

  /** Not yet closed: the writers before `i`. */
  ghost predicate Unclosed(started: seq<JSONIndexWriter>, ws: seq<Shape>, i: nat, k: nat)
    reads started
  {
    && i <= |started| == |ws| && Distinct(started)
    && forall j :: 0 <= j < i ==> if j < k then started[j].completed && started[j].tmpPath == "" && !started[j].open else started[j].At(ws[j])
  }

  method CloseNext(dir: Directory, started: seq<JSONIndexWriter>, i: nat, ghost ws: seq<Shape>, ghost f: Files, ghost paths: set<string>, ghost k: nat)
    returns (ok: bool, ghost undone: bool)
    requires i < |started| && Unclosed(started, ws, i + 1, k) && Stack(f, ws, paths, dir.taken, k)
    modifies dir`files, dir`faults, started[i]
    ensures Unclosed(started, ws, i, k) && (ok ==> undone)
    ensures i < k ==> undone && unchanged(dir)
    ensures dir.Coming() <= old(dir.Coming())
    ensures k <= i && !undone && old(dir.files) == Layers(f, ws[..i + 1]) ==> dir.Coming() < old(dir.Coming())
    ensures k <= i && undone && old(dir.files) == Layers(f, ws[..i + 1]) ==> dir.files == Layers(f, ws[..i])
  {
    if k <= i {
      PeelTop(f, ws, i, paths, dir.taken, k);
      TopHasFiles(f, ws, i, paths, dir.taken, k);
    }
    ok, undone := started[i].Close(dir);
  }

  /** The deferred loop: close the started writers, last first. Each Close peels one layer. */
  method CloseAll(dir: Directory, started: seq<JSONIndexWriter>, ghost ws: seq<Shape>, ghost f: Files, ghost paths: set<string>, ghost k: nat)
    returns (ok: bool, ghost undone: bool)
    requires k <= |started| && Completing(started, ws, f, paths, dir.taken, k)
    modifies dir`files, dir`faults, started
    ensures ok ==> undone
    ensures old(dir.files) == Layers(f, ws) && undone ==> dir.files == Layers(f, ws[..k])
    ensures k == |started| ==> undone && unchanged(dir)
    ensures dir.Coming() <= old(dir.Coming())
    ensures old(dir.files) == Layers(f, ws) && !undone ==> dir.Coming() < old(dir.Coming())
  {
    ok, undone := true, true;
    ghost var stacked := dir.files == Layers(f, ws);
    var i := |started|;
    assert ws[..i] == ws;
    while i > 0
      invariant i <= |started| && Unclosed(started, ws, i, k)
      invariant k == |started| ==> undone && unchanged(dir)
      invariant dir.Coming() <= old(dir.Coming())
      invariant stacked && !undone ==> dir.Coming() < old(dir.Coming())
      invariant ok ==> undone
      invariant stacked && undone ==> dir.files == Layers(f, ws[..if k < i then i else k])
    {
      i := i - 1;
      var closed;
      ghost var peeled;
      closed, peeled := CloseNext(dir, started, i, ws, f, paths, k);
      ok, undone := ok && closed, undone && peeled;
    }
  }

  // ---- the build

  datatype Outcome = Published | RolledBack | HalfCompleted(completed: nat, backup: string)

  /** The layers of a build that completed all its writers. */
  lemma AllCompleted(f: Files, ws: seq<Shape>, body: string, paths: seq<string>)
    requires DoneTo(ws, |ws|, body, paths)
    ensures Layers(f, ws) == Overlay(f, paths, body)
  {
    DoneIsOverlay(f, ws, body);
    assert Paths(ws) == paths;
  }

  lemma HalfLayer(base: Files, w: Shape)
    requires w.tmp == "" && w.moved && w.published && w.path in base && w.backup != w.path
    ensures Layer(base, w) == base[w.path := w.body][w.backup := base[w.path]]
  {
  }

  /** The new index at the first `k` paths, and at `backup` what the last of them held before. */
  predicate HalfPublished(f: Files, paths: seq<string>, body: string, k: nat, backup: string, d: Files)
    requires 0 < k <= |paths|
  {
    && paths[k - 1] in Overlay(f, paths[..k - 1], body)
    && d == Overlay(f, paths[..k], body)[backup := Overlay(f, paths[..k - 1], body)[paths[k - 1]]]
  }

  /**
   A Complete that fails: the writers up to it keep the new index, and the file it could
   not remove still holds what its path held when it was committed.
   */
  lemma HalfDone(f: Files, ws: seq<Shape>, k: nat, body: string, paths: seq<string>)
    requires 0 < k <= |ws| && DoneTo(ws, k - 1, body, paths)
    requires HasBackup(Layers(f, ws[..k - 1]), ws[k - 1])
    ensures HalfPublished(f, paths, body, k, ws[k - 1].backup, Layers(f, ws[..k]))
  {
    var us, w := ws[..k - 1], ws[k - 1];
    AllCompleted(f, us, body, paths[..k - 1]);
    assert ws[..k] == us + [w];
    LayersStep(f, us, w);
    HalfLayer(Layers(f, us), w);
    OverlayAt(f, paths, k, body);
  }

  lemma OverlayAt(f: Files, paths: seq<string>, k: nat, body: string)
    requires 0 < k <= |paths|
    ensures Overlay(f, paths[..k], body) == Overlay(f, paths[..k - 1], body)[paths[k - 1] := body]
  {
    OverlayStep(f, paths[..k - 1], paths[k - 1], body);
    assert paths[..k] == paths[..k - 1] + [paths[k - 1]];
  }

  function FinalPath(w: JSONIndexWriter?): string { if w == null then "" else w.path }

  function FinalPaths(writers: seq<JSONIndexWriter?>): (r: seq<string>)
    ensures |r| == |writers| && forall i :: 0 <= i < |writers| ==> r[i] == FinalPath(writers[i])
  {
    seq(|writers|, i requires 0 <= i < |writers| => FinalPath(writers[i]))
  }

  function PathSet(writers: seq<JSONIndexWriter?>): (r: set<string>)
    ensures forall i :: 0 <= i < |writers| && writers[i] != null ==> writers[i].path in r
    ensures forall p :: p in r ==> exists i :: 0 <= i < |writers| && writers[i] != null && writers[i].path == p
  {
    set i | 0 <= i < |writers| && writers[i] != null :: FinalPath(writers[i])
  }

  /** Append, prepare and commit: everything between Start and Complete. */
  method WriteAndCommit(dir: Directory, started: seq<JSONIndexWriter>, header: string, records: seq<Option<string>>, scanned: bool, trailer: string,
                        ghost was: seq<Shape>, ghost f: Files, ghost paths: set<string>)
    returns (ok: bool, ghost ws: seq<Shape>)
    requires Writing(dir, started, was, f, paths) && Same(was, header) && AllRecording(started, false)
    modifies dir, started
    ensures Committing(dir, started, ws, f, paths)
    ensures ok ==> CommittedTo(ws, |started|, Rendered(header, Texts(records), trailer))
    ensures dir.Coming() <= old(dir.Coming())
    ensures ok <==> scanned && Encoded(started, records) && dir.Coming() == old(dir.Coming())
  {
    ghost var seen := records != [];
    ok, ws := AppendRecords(dir, started, records, header, was, f, paths);
    if !ok || !scanned { return false, ws; }
    ok, ws := PrepareAll(dir, started, trailer, seen, header + Joined(Texts(records)), ws, f, paths);
    if !ok { return; }
    ok, ws := CommitAll(dir, started, Rendered(header, Texts(records), trailer), ws, f, paths);
  }

  /** Complete and close: what is left in the directory. */
  method Finish(dir: Directory, started: seq<JSONIndexWriter>, ghost body: string, ghost fp: seq<string>,
                ghost was: seq<Shape>, ghost f: Files, ghost paths: set<string>)
    returns (outcome: Outcome, ghost undone: bool)
    requires Committing(dir, started, was, f, paths) && CommittedTo(was, |started|, body) && SamePaths(was, fp)
    modifies dir`files, dir`faults, started
    ensures outcome != RolledBack
    ensures dir.Coming() <= old(dir.Coming())
    ensures outcome == Published <==> dir.Coming() == old(dir.Coming())
    ensures !undone ==> dir.Coming() + 1 < old(dir.Coming())
    ensures outcome == Published ==> dir.files == Overlay(f, fp, body)
    ensures outcome.HalfCompleted? ==> 0 < outcome.completed <= |fp|
    ensures outcome.HalfCompleted? && undone ==> HalfPublished(f, fp, body, outcome.completed, outcome.backup, dir.files)
  {
    var ok, k;
    ghost var ws;
    ok, k, ws := CompleteAll(dir, started, body, fp, was, f, paths);
    outcome := if ok then Published else HalfCompleted(k, started[k - 1].backupPath);
    var closed;
    closed, undone := CloseAll(dir, started, ws, f, paths, k);
    if ok {
      AllCompleted(f, ws, body, fp);
    } else {
      HalfDone(f, ws, k, body, fp);
    }
  }

  lemma WritingPaths(started: seq<JSONIndexWriter>, ws: seq<Shape>, fp: seq<string>)
    requires Linked(started, ws, 0) && |started| == |fp| && forall i :: 0 <= i < |started| ==> started[i].path == fp[i]
    ensures SamePaths(ws, fp)
  {
  }

  /** The rest of the build once every writer is started. */
  method Run(dir: Directory, started: seq<JSONIndexWriter>, header: string, records: seq<Option<string>>, scanned: bool, trailer: string,
             ghost fp: seq<string>, ghost was: seq<Shape>, ghost f: Files, ghost paths: set<string>)
    returns (outcome: Outcome, ghost undone: bool)
    requires Writing(dir, started, was, f, paths) && Same(was, header) && AllRecording(started, false)
    requires |started| == |fp| && forall i :: 0 <= i < |started| ==> started[i].path == fp[i]
    modifies dir, started
    ensures outcome == Published ==> dir.files == Overlay(f, fp, Rendered(header, Texts(records), trailer))
    ensures dir.Coming() <= old(dir.Coming())
    ensures outcome == Published <==> scanned && Encoded(started, records) && dir.Coming() == old(dir.Coming())
    ensures !undone ==> dir.Coming() + (if scanned && Encoded(started, records) then 1 else 0) < old(dir.Coming())
    ensures outcome == RolledBack && undone ==> dir.files == f
    ensures outcome.HalfCompleted? ==> scanned && Encoded(started, records) && 0 < outcome.completed <= |fp|
    ensures outcome.HalfCompleted? && undone ==>
      HalfPublished(f, fp, Rendered(header, Texts(records), trailer), outcome.completed, outcome.backup, dir.files)
  {
    var ok;
    ghost var ws;
    ok, ws := WriteAndCommit(dir, started, header, records, scanned, trailer, was, f, paths);
    if ok {
      WritingPaths(started, ws, fp);
      outcome, undone := Finish(dir, started, Rendered(header, Texts(records), trailer), fp, ws, f, paths);
    } else {
      outcome := RolledBack;
      ok, undone := CloseAll(dir, started, ws, f, paths, 0);
    }
  }

  lemma PathsOf(started: seq<JSONIndexWriter>, writers: seq<JSONIndexWriter?>)
    requires Prefix(started, writers) && |started| == |writers|
    ensures started == [] <==> writers == []
    ensures forall i :: 0 <= i < |started| ==> started[i].path == FinalPaths(writers)[i]
  {
  }

  /** A build that only the directory can stop. */
  ghost predicate Buildable(writers: seq<JSONIndexWriter?>, writable: bool, records: seq<Option<string>>, scanned: bool) {
    Acceptable(writers, writable) && scanned && Encoded(writers, records)
  }

  /**
   BuildTo from the point where the header is known. `records` are the records the scan
   yields, as encoded or refused by the encoder, `scanned` says whether it reached the end
   of the source, `writable` whether the header's format can be written. The build publishes
   exactly if none of these stops it and no operation fails. `undone`: every rename and
   removal of a rollback succeeded, also inside a failed Start; if not, an operation failed
   besides the one that stopped the build, if one did.
   */
  method BuildTo(dir: Directory, writers: seq<JSONIndexWriter?>, header: string, writable: bool, records: seq<Option<string>>, scanned: bool, trailer: string)
    returns (outcome: Outcome, ghost undone: bool)
    requires forall i :: 0 <= i < |writers| && writers[i] != null ==> writers[i].IsNew() && writers[i].path != "" && writers[i].path in dir.taken
    modifies dir, writers
    ensures outcome == Published <==> Buildable(writers, writable, records, scanned) && dir.Coming() == old(dir.Coming())
    ensures outcome == Published ==> dir.files == Overlay(old(dir.files), FinalPaths(writers), Rendered(header, Texts(records), trailer))
    ensures outcome == RolledBack && undone ==> dir.files == old(dir.files)
    ensures outcome.HalfCompleted? ==> Buildable(writers, writable, records, scanned) && 0 < outcome.completed <= |writers|
    ensures outcome.HalfCompleted? && undone ==>
      HalfPublished(old(dir.files), FinalPaths(writers), Rendered(header, Texts(records), trailer), outcome.completed, outcome.backup, dir.files)
    ensures !undone ==> dir.Coming() + (if Buildable(writers, writable, records, scanned) then 1 else 0) < old(dir.Coming())
    ensures old(dir.Coming()) == 0 ==> undone && dir.Coming() == 0
  {
    ghost var f, fp, paths := dir.files, FinalPaths(writers), PathSet(writers);
    var ok, started;
    ghost var ws, restored;
    ok, restored, started, ws := StartAll(dir, writers, header, writable, paths);
    if ok {
      PathsOf(started, writers);
      outcome, undone := Run(dir, started, header, records, scanned, trailer, fp, ws, f, paths);
    } else {
      ok, undone := CloseAll(dir, started, ws, f, paths, 0);
      outcome, undone := RolledBack, undone && restored;
    }
  }
}
