/**
 Publication of a record index through several writers: `internal/index/writer.go` and the
 orchestration of `BuildTo` and `buildJSONTo`. Every file operation can fail.

 The argument is a stack of layers. Each writer changes the directory by one `Layer`, the
 layers lie in writer order, and closing the writers in reverse order peels them off. The
 writers may share paths: no assumption is made that their final paths differ.
 */
module IndexPublication {
  import opened Wrappers

  type Files = map<string, string>

  // ---- what a writer has done to the directory, as a value

  /**
   `tmp` and `backup` are "" when the writer has no such name. `moved`: the file that was
   at `path` is now at `backup`. `published`: `path` holds `body`.
   */
  datatype Shape = Shape(path: string, tmp: string, backup: string, body: string, moved: bool, published: bool)

  function Layer(f: Files, w: Shape): Files {
    var f1 := if w.moved && w.path in f then (f - {w.path})[w.backup := f[w.path]] else f;
    var f2 := if w.published then f1[w.path := w.body] else f1;
    if w.tmp != "" then f2[w.tmp := w.body] else f2
  }

  function Layers(f: Files, ws: seq<Shape>): Files {
    if ws == [] then f else Layer(Layers(f, ws[..|ws| - 1]), ws[|ws| - 1])
  }

  /** A layer that peeling can undo, over the directory below it. */
  predicate Fits(f: Files, w: Shape) {
    && w.path != "" && w.tmp != w.path && (w.tmp != "" ==> w.tmp !in f)
    && (w.backup != "" ==> w.backup !in f && w.backup != w.path && w.backup != w.tmp)
    && (w.moved ==> w.backup != "" && w.path in f)
    && (w.published && !w.moved ==> w.path !in f)
    && (w.published ==> w.tmp == "")
  }

  /** From the `k`th writer on, every layer can be peeled. */
  predicate Stacked(f: Files, ws: seq<Shape>, k: nat) {
    forall i :: k <= i < |ws| ==> Fits(Layers(f, ws[..i]), ws[i])
  }

  /** A writer that has only its temporary file. */
  predicate Pending(w: Shape) { w.tmp != "" && w.backup == "" && !w.moved && !w.published }

  /** Temporary and backup names are no one's final path and no two are equal. */
  predicate Apart(ws: seq<Shape>) {
    forall i, j :: 0 <= i < |ws| && 0 <= j < |ws| ==>
      && (ws[i].tmp != "" ==> ws[i].tmp != ws[j].path && ws[i].tmp != ws[j].backup && (i != j ==> ws[i].tmp != ws[j].tmp))
      && (ws[i].backup != "" ==> ws[i].backup != ws[j].path && (i != j ==> ws[i].backup != ws[j].backup))
  }

  /** The names a layer owns or has used. */
  function Uses(w: Shape): set<string> {
    (if w.tmp != "" then {w.tmp} else {})
    + (if w.backup != "" then {w.backup} else {})
    + (if w.moved || w.published then {w.path} else {})
    + (if w.moved then {w.backup} else {})
  }

  predicate Untouched(ws: seq<Shape>, names: set<string>) {
    forall i :: 0 <= i < |ws| ==> Uses(ws[i]) !! names
  }

  predicate SameAt(f: Files, g: Files, n: string) { (n in f <==> n in g) && (n in f && n in g ==> f[n] == g[n]) }

  ghost predicate SameOff(f: Files, g: Files, names: set<string>) { forall n :: n !in names ==> SameAt(f, g, n) }

  lemma LayersStep(f: Files, ws: seq<Shape>, w: Shape)
    ensures Layers(f, ws + [w]) == Layer(Layers(f, ws), w)
  {
    assert (ws + [w])[..|ws|] == ws;
  }

  lemma {:induction false} LayersSplit(f: Files, ws: seq<Shape>, us: seq<Shape>)
    ensures Layers(f, ws + us) == Layers(Layers(f, ws), us)
    decreases |us|
  {
    if us == [] {
      assert ws + us == ws;
    } else {
      LayersSplit(f, ws, us[..|us| - 1]);
      assert (ws + us)[..|ws + us| - 1] == ws + us[..|us| - 1];
    }
  }

  /** Peeling: what Close does to the directory for a writer that is not completed. */
  function Peeled(f: Files, w: Shape): Files {
    var f1 := if w.published then f - {w.path} else f;
    var f2 := if w.backup != "" && w.backup in f1 then (f1 - {w.backup})[w.path := f1[w.backup]] else f1;
    if w.tmp != "" then f2 - {w.tmp} else f2
  }

  lemma PeelUndoesLayer(f: Files, w: Shape)
    requires Fits(f, w)
    ensures Peeled(Layer(f, w), w) == f
  {
    if w.moved {
      assert w.backup in Layer(f, w);
    }
  }

  /** Layers leave names they do not touch alone. */
  lemma {:induction false} LayersFrame(f: Files, us: seq<Shape>, n: string)
    requires Untouched(us, {n})
    ensures SameAt(f, Layers(f, us), n)
    decreases |us|
  {
    if us == [] {
    } else {
      LayersFrame(f, us[..|us| - 1], n);
      assert n !in Uses(us[|us| - 1]);
    }
  }

  lemma LayerAgrees(f: Files, g: Files, w: Shape, names: set<string>)
    requires Uses(w) !! names && SameOff(f, g, names)
    ensures SameOff(Layer(f, w), Layer(g, w), names)
  {
    if w.moved {
      assert w.path in Uses(w) && SameAt(f, g, w.path);
    }
    forall n | n !in names
      ensures SameAt(Layer(f, w), Layer(g, w), n)
    {
      assert SameAt(f, g, n);
    }
  }

  /** Directories that differ in some names differ in those names below any layers that do not touch them. */
  lemma {:induction false} LayersAgree(f: Files, g: Files, us: seq<Shape>, names: set<string>)
    requires Untouched(us, names) && SameOff(f, g, names)
    ensures SameOff(Layers(f, us), Layers(g, us), names)
    decreases |us|
  {
    if us == [] {
    } else {
      var init := us[..|us| - 1];
      LayersAgree(f, g, init, names);
      LayerAgrees(Layers(f, init), Layers(g, init), us[|us| - 1], names);
    }
  }

  /**
   Replacing one layer: if `d` is the stack's directory except in `names`, which the layers
   above do not touch, and in `names` it is as the new layer says, `d` is the new stack's
   directory.
   */
  lemma ReplaceLayer(f: Files, ws: seq<Shape>, i: nat, w: Shape, names: set<string>, d: Files)
    requires i < |ws| && Untouched(ws[i + 1..], names)
    requires SameOff(Layer(Layers(f, ws[..i]), ws[i]), Layer(Layers(f, ws[..i]), w), names)
    requires SameOff(d, Layers(f, ws), names)
    requires forall n :: n in names ==> SameAt(d, Layer(Layers(f, ws[..i]), w), n)
    ensures d == Layers(f, ws[i := w])
  {
    var base, us := Layers(f, ws[..i]), ws[i + 1..];
    StackAt(f, ws, i);
    StackAt(f, ws[i := w], i);
    assert ws[i := w][..i] == ws[..i] && ws[i := w][i + 1..] == us;
    LayersAgree(Layer(base, ws[i]), Layer(base, w), us, names);
    var none: set<string> := {};
    forall n | n !in none
      ensures SameAt(d, Layers(f, ws[i := w]), n)
    {
      if n in names {
        LayersFrame(Layer(base, w), us, n);
        assert SameAt(d, Layer(base, w), n);
      } else {
        assert SameAt(Layers(f, ws), Layers(f, ws[i := w]), n);
        assert SameAt(d, Layers(f, ws), n);
      }
    }
    SameEverywhere(d, Layers(f, ws[i := w]));
  }

  lemma SameEverywhere(f: Files, g: Files)
    requires SameOff(f, g, {})
    ensures f == g
  {
    forall n
      ensures n in f <==> n in g
      ensures n in f && n in g ==> f[n] == g[n]
    {
      assert SameAt(f, g, n);
    }
  }

  lemma StackAt(f: Files, ws: seq<Shape>, i: nat)
    requires i < |ws|
    ensures Layers(f, ws) == Layers(Layer(Layers(f, ws[..i]), ws[i]), ws[i + 1..])
  {
    LayersSplit(f, ws[..i + 1], ws[i + 1..]);
    assert ws[..i + 1] + ws[i + 1..] == ws;
    LayersStep(f, ws[..i], ws[i]);
    assert ws[..i] + [ws[i]] == ws[..i + 1];
  }

  lemma FitsAgrees(f: Files, g: Files, w: Shape, names: set<string>)
    requires SameOff(f, g, names) && Fits(f, w) && Uses(w) !! names
    ensures Fits(g, w)
  {
    assert w.tmp != "" ==> w.tmp in Uses(w) && SameAt(f, g, w.tmp);
    assert w.backup != "" ==> w.backup in Uses(w) && SameAt(f, g, w.backup);
    assert w.moved || w.published ==> w.path in Uses(w) && SameAt(f, g, w.path);
  }

  lemma ReplaceKeepsFit(f: Files, ws: seq<Shape>, i: nat, w: Shape, names: set<string>, j: nat)
    requires i < j < |ws| && Untouched(ws[i + 1..], names) && Fits(Layers(f, ws[..j]), ws[j])
    requires SameOff(Layer(Layers(f, ws[..i]), ws[i]), Layer(Layers(f, ws[..i]), w), names)
    ensures Fits(Layers(f, ws[i := w][..j]), ws[j])
  {
    var vs, us := ws[i := w][..j], ws[i + 1..j];
    StackAt(f, ws[..j], i);
    StackAt(f, vs, i);
    assert ws[..j][..i] == ws[..i] && vs[..i] == ws[..i] && ws[..j][i + 1..] == us && vs[i + 1..] == us;
    assert forall m :: 0 <= m < |us| ==> us[m] == ws[i + 1..][m];
    LayersAgree(Layer(Layers(f, ws[..i]), ws[i]), Layer(Layers(f, ws[..i]), w), us, names);
    assert ws[j] == ws[i + 1..][j - i - 1];
    FitsAgrees(Layers(f, ws[..j]), Layers(f, vs), ws[j], names);
  }

  lemma ReplaceKeepsStack(f: Files, ws: seq<Shape>, i: nat, w: Shape, names: set<string>, k: nat)
    requires i < |ws| && Untouched(ws[i + 1..], names) && Stacked(f, ws, k)
    requires SameOff(Layer(Layers(f, ws[..i]), ws[i]), Layer(Layers(f, ws[..i]), w), names)
    requires i < k || Fits(Layers(f, ws[..i]), w)
    ensures Stacked(f, ws[i := w], k)
  {
    var vs := ws[i := w];
    forall j | k <= j < |vs|
      ensures Fits(Layers(f, vs[..j]), vs[j])
    {
      if j <= i {
        assert vs[..j] == ws[..j];
      } else {
        ReplaceKeepsFit(f, ws, i, w, names, j);
      }
    }
  }

  /** Replacing one layer by another over the same base: `d` is the new directory. */
  ghost predicate Replaces(f: Files, ws: seq<Shape>, i: nat, w: Shape, names: set<string>, d: Files)
    requires i < |ws|
  {
    && Untouched(ws[i + 1..], names)
    && SameOff(Layer(Layers(f, ws[..i]), ws[i]), Layer(Layers(f, ws[..i]), w), names)
    && SameOff(d, Layers(f, ws), names)
    && (forall n :: n in names ==> SameAt(d, Layer(Layers(f, ws[..i]), w), n))
  }

  lemma Replace(f: Files, ws: seq<Shape>, i: nat, w: Shape, names: set<string>, d: Files, k: nat)
    requires i < |ws| && Replaces(f, ws, i, w, names, d) && Stacked(f, ws, k)
    requires i < k || Fits(Layers(f, ws[..i]), w)
    ensures Layers(f, ws[i := w]) == d && Stacked(f, ws[i := w], k)
  {
    ReplaceLayer(f, ws, i, w, names, d);
    ReplaceKeepsStack(f, ws, i, w, names, k);
  }

  // ---- the steps of the build, on the stack

  predicate AllPending(ws: seq<Shape>, k: nat) { forall i :: k <= i < |ws| ==> Pending(ws[i]) }

  /** A temporary or backup name of a writer is used by no writer after it. */
  lemma OwnedIsUntouched(ws: seq<Shape>, i: nat, n: string)
    requires i < |ws| && Apart(ws) && n != "" && (n == ws[i].tmp || n == ws[i].backup)
    ensures Untouched(ws[i + 1..], {n})
  {
    var us := ws[i + 1..];
    forall j | 0 <= j < |us|
      ensures Uses(us[j]) !! {n}
    {
      assert us[j] == ws[i + 1 + j];
    }
  }

  lemma ApartUpdate(ws: seq<Shape>, i: nat, w: Shape)
    requires i < |ws| && Apart(ws) && w.path == ws[i].path
    requires (w.tmp == ws[i].tmp || w.tmp == "") && (w.backup == ws[i].backup || w.backup == "")
    ensures Apart(ws[i := w])
  {
    var vs := ws[i := w];
    forall a, b | 0 <= a < |vs| && 0 <= b < |vs|
      ensures vs[a].tmp != "" ==> vs[a].tmp != vs[b].path && vs[a].tmp != vs[b].backup && (a != b ==> vs[a].tmp != vs[b].tmp)
      ensures vs[a].backup != "" ==> vs[a].backup != vs[b].path && (a != b ==> vs[a].backup != vs[b].backup)
    {
      assert vs[a].tmp == "" || vs[a].tmp == ws[a].tmp;
      assert vs[b].tmp == "" || vs[b].tmp == ws[b].tmp;
      assert vs[a].path == ws[a].path && vs[b].path == ws[b].path;
    }
  }

  /** Writing to a temporary file changes that writer's layer only. */
  lemma WriteOnStack(f: Files, ws: seq<Shape>, i: nat, body: string)
    requires i < |ws| && Stacked(f, ws, 0) && Apart(ws) && AllPending(ws, 0)
    ensures var vs := ws[i := ws[i].(body := body)];
      Stacked(f, vs, 0) && Apart(vs) && AllPending(vs, 0) && Layers(f, vs) == Layers(f, ws)[ws[i].tmp := body]
    ensures ws[i].tmp in Layers(f, ws) && Layers(f, ws)[ws[i].tmp] == ws[i].body
  {
    var w := ws[i];
    OwnedIsUntouched(ws, i, w.tmp);
    StackAt(f, ws, i);
    LayersFrame(Layer(Layers(f, ws[..i]), w), ws[i + 1..], w.tmp);
    ApartUpdate(ws, i, w.(body := body));
    assert Fits(Layers(f, ws[..i]), w);
    Replace(f, ws, i, w.(body := body), {w.tmp}, Layers(f, ws)[w.tmp := body], 0);
  }

  /** The directory after a writer has published: the old file, if any, moved away. */
  function Swapped(d: Files, path: string, tmp: string, backup: string): Files
    requires tmp in d
  {
    ((if path in d then MovedAway(d, path, backup) else d) - {tmp})[path := d[tmp]]
  }

  function MovedAway(d: Files, path: string, backup: string): Files
    requires path in d
  {
    (d - {path})[backup := d[path]]
  }

  predicate NewBackup(ws: seq<Shape>, d: Files, backup: string) {
    backup != "" && backup !in d && forall j :: 0 <= j < |ws| ==> backup != ws[j].path && backup != ws[j].tmp && backup != ws[j].backup
  }

  /** Giving a writer a fresh backup name keeps the names apart. */
  lemma ApartBackup(ws: seq<Shape>, i: nat, d: Files, backup: string)
    requires i < |ws| && Apart(ws) && NewBackup(ws, d, backup)
    ensures Apart(ws[i := ws[i].(backup := backup)])
  {
  }

  /** What writer `i` sees of its names through the temporary files of the writers after it. */
  lemma PendingAbove(f: Files, ws: seq<Shape>, i: nat, backup: string)
    requires i < |ws| && Apart(ws) && AllPending(ws, i) && NewBackup(ws, Layers(f, ws), backup)
    ensures ws[i].tmp in Layers(f, ws) && Layers(f, ws)[ws[i].tmp] == ws[i].body
    ensures SameAt(Layers(f, ws[..i]), Layers(f, ws), ws[i].path)
    ensures backup !in Layers(f, ws[..i])
    ensures Untouched(ws[i + 1..], {ws[i].tmp, ws[i].path, backup})
  {
    StackAt(f, ws, i);
    var on := Layer(Layers(f, ws[..i]), ws[i]);
    LayersFrame(on, ws[i + 1..], ws[i].tmp);
    LayersFrame(on, ws[i + 1..], ws[i].path);
    LayersFrame(on, ws[i + 1..], backup);
  }

  /** The layer of a writer that has published, in place of its pending one. */
  lemma CommitLayer(base: Files, w: Shape, d: Files, backup: string)
    requires Pending(w) && Fits(base, w) && SameAt(base, d, w.path) && w.tmp in d && d[w.tmp] == w.body
    requires backup != "" && backup !in base && backup !in d && backup != w.path && backup != w.tmp
    ensures var v := w.(tmp := "", backup := if w.path in d then backup else "", moved := w.path in d, published := true);
      var names := {w.tmp, w.path, backup};
      && Fits(base, v) && SameOff(Layer(base, w), Layer(base, v), names)
      && SameOff(Swapped(d, w.path, w.tmp, backup), d, names)
      && (forall n :: n in names ==> SameAt(Swapped(d, w.path, w.tmp, backup), Layer(base, v), n))
  {
  }

  lemma CommitOnStack(f: Files, ws: seq<Shape>, i: nat, backup: string)
    requires i < |ws| && Stacked(f, ws, 0) && Apart(ws) && AllPending(ws, i) && NewBackup(ws, Layers(f, ws), backup)
    ensures ws[i].tmp in Layers(f, ws)
    ensures var moved := ws[i].path in Layers(f, ws);
      var vs := ws[i := ws[i].(tmp := "", backup := if moved then backup else "", moved := moved, published := true)];
      Stacked(f, vs, 0) && Apart(vs) && Layers(f, vs) == Swapped(Layers(f, ws), ws[i].path, ws[i].tmp, backup)
  {
    PendingAbove(f, ws, i, backup);
    var base, d, w := Layers(f, ws[..i]), Layers(f, ws), ws[i];
    assert Fits(base, w) && Pending(w);
    CommitLayer(base, w, d, backup);
    var moved := w.path in d;
    var v := w.(tmp := "", backup := if moved then backup else "", moved := moved, published := true);
    ApartBackup(ws, i, d, backup);
    ApartUpdate(ws[i := w.(backup := backup)], i, v);
    assert ws[i := w.(backup := backup)][i := v] == ws[i := v];
    Replace(f, ws, i, v, {w.tmp, w.path, backup}, Swapped(d, w.path, w.tmp, backup), 0);
  }

  /** A commit that failed with the old file back in place: only the backup name remains. */
  lemma RestoredOnStack(f: Files, ws: seq<Shape>, i: nat, backup: string)
    requires i < |ws| && Stacked(f, ws, 0) && Apart(ws) && AllPending(ws, i) && NewBackup(ws, Layers(f, ws), backup)
    ensures var vs := ws[i := ws[i].(backup := backup)];
      Stacked(f, vs, 0) && Apart(vs) && Layers(f, vs) == Layers(f, ws)
  {
    PendingAbove(f, ws, i, backup);
    ApartBackup(ws, i, Layers(f, ws), backup);
    assert Fits(Layers(f, ws[..i]), ws[i]);
    Replace(f, ws, i, ws[i].(backup := backup), {}, Layers(f, ws), 0);
  }

  lemma MovedLayer(base: Files, w: Shape, d: Files, backup: string)
    requires Pending(w) && Fits(base, w) && SameAt(base, d, w.path) && w.tmp in d && d[w.tmp] == w.body && w.path in d
    requires backup != "" && backup !in base && backup !in d && backup != w.path && backup != w.tmp
    ensures var v := w.(backup := backup, moved := true);
      var names := {w.tmp, w.path, backup};
      && Fits(base, v) && SameOff(Layer(base, w), Layer(base, v), names)
      && SameOff(MovedAway(d, w.path, backup), d, names)
      && (forall n :: n in names ==> SameAt(MovedAway(d, w.path, backup), Layer(base, v), n))
  {
  }

  /** A commit that failed and could not put the old file back. */
  lemma MovedOnStack(f: Files, ws: seq<Shape>, i: nat, backup: string)
    requires i < |ws| && Stacked(f, ws, 0) && Apart(ws) && AllPending(ws, i) && NewBackup(ws, Layers(f, ws), backup)
    requires ws[i].path in Layers(f, ws)
    ensures var vs := ws[i := ws[i].(backup := backup, moved := true)];
      Stacked(f, vs, 0) && Apart(vs) && Layers(f, vs) == MovedAway(Layers(f, ws), ws[i].path, backup)
  {
    PendingAbove(f, ws, i, backup);
    var base, d, w := Layers(f, ws[..i]), Layers(f, ws), ws[i];
    assert Fits(base, w) && Pending(w);
    MovedLayer(base, w, d, backup);
    var v := w.(backup := backup, moved := true);
    ApartBackup(ws, i, d, backup);
    ApartUpdate(ws[i := w.(backup := backup)], i, v);
    assert ws[i := w.(backup := backup)][i := v] == ws[i := v];
    Replace(f, ws, i, v, {w.tmp, w.path, backup}, MovedAway(d, w.path, backup), 0);
  }

  /** A completed writer: its path holds the new index, and nothing else of it remains. */
  function Done(w: Shape): Shape { Shape(w.path, "", "", w.body, false, true) }

  lemma DoneLayer(base: Files, w: Shape)
    requires Fits(base, w) && w.published
    ensures SameOff(Layer(base, w), Layer(base, Done(w)), {w.backup})
    ensures w.backup != "" ==> w.backup !in Layer(base, Done(w))
    ensures w.backup == "" ==> Layer(base, w) == Layer(base, Done(w))
  {
  }

  lemma CompleteOnStack(f: Files, ws: seq<Shape>, i: nat)
    requires i < |ws| && Stacked(f, ws, i) && Apart(ws) && ws[i].published
    ensures Stacked(f, ws[i := Done(ws[i])], i + 1) && Apart(ws[i := Done(ws[i])])
    ensures Layers(f, ws[i := Done(ws[i])]) == if ws[i].backup != "" then Layers(f, ws) - {ws[i].backup} else Layers(f, ws)
  {
    var base, d, w := Layers(f, ws[..i]), Layers(f, ws), ws[i];
    assert Fits(base, w);
    DoneLayer(base, w);
    ApartUpdate(ws, i, Done(w));
    if w.backup == "" {
      assert Untouched(ws[i + 1..], {});
      Replace(f, ws, i, Done(w), {}, d, i + 1);
    } else {
      OwnedIsUntouched(ws, i, w.backup);
      Replace(f, ws, i, Done(w), {w.backup}, d - {w.backup}, i + 1);
    }
  }

  /** All layers done: the directory with every path of the build replaced, and nothing else changed. */
  function Overlay(f: Files, paths: seq<string>, body: string): Files {
    f + map p | p in paths :: body
  }

  lemma OverlayStep(f: Files, paths: seq<string>, p: string, body: string)
    ensures Overlay(f, paths + [p], body) == Overlay(f, paths, body)[p := body]
  {
  }

  predicate AllDone(ws: seq<Shape>, body: string) {
    forall i :: 0 <= i < |ws| ==> ws[i].published && ws[i].tmp == "" && ws[i].backup == "" && !ws[i].moved && ws[i].body == body
  }

  function Paths(ws: seq<Shape>): (r: seq<string>)
    ensures |r| == |ws| && forall i :: 0 <= i < |ws| ==> r[i] == ws[i].path
  {
    seq(|ws|, i requires 0 <= i < |ws| => ws[i].path)
  }

  /** All layers done: the directory with every path of the build replaced, and nothing else changed. */
  lemma {:induction false} DoneIsOverlay(f: Files, ws: seq<Shape>, body: string)
    requires AllDone(ws, body)
    ensures Layers(f, ws) == Overlay(f, Paths(ws), body)
    decreases |ws|
  {
    if ws == [] {
      assert Overlay(f, [], body) == f;
    } else {
      var k := |ws| - 1;
      DoneIsOverlay(f, ws[..k], body);
      OverlayStep(f, Paths(ws[..k]), ws[k].path, body);
      assert Paths(ws) == Paths(ws[..k]) + [ws[k].path];
    }
  }

  // ---- the text of an index; JSON fragments are given

  /** One record of the array as AppendRecord writes it. */
  function Piece(record: string, seen: bool): string { (if seen then "," else "") + ("\n    " + record) }

  function Joined(records: seq<string>): string {
    if records == [] then ""
    else Joined(records[..|records| - 1]) + Piece(records[|records| - 1], |records| > 1)
  }

  function Closing(seen: bool): string { if seen then "\n  ],\n" else "],\n" }

  function Rendered(header: string, records: seq<string>, trailer: string): string {
    header + Joined(records) + Closing(records != []) + trailer
  }

  /** The usual join of texts by a separator. */
  function Join(texts: seq<string>, sep: string): string {
    if texts == [] then "" else if |texts| == 1 then texts[0] else texts[0] + sep + Join(texts[1..], sep)
  }

  lemma {:induction false} JoinAtEnd(texts: seq<string>, text: string, sep: string)
    requires texts != []
    ensures Join(texts + [text], sep) == Join(texts, sep) + sep + text
    decreases |texts|
  {
    var all := texts + [text];
    if |texts| == 1 {
      assert all[1..] == [text];
    } else {
      assert all[1..] == texts[1..] + [text];
      JoinAtEnd(texts[1..], text, sep);
      assert all[0] == texts[0];
    }
  }

  /** The array as it is written record by record is the records joined by commas, one on each line. */
  lemma {:induction false} JoinedIsJoin(records: seq<string>)
    requires records != []
    ensures Joined(records) == "\n    " + Join(records, ",\n    ")
    decreases |records|
  {
    var k := |records| - 1;
    if k == 0 {
      assert records[..0] == [];
    } else {
      JoinedIsJoin(records[..k]);
      JoinAtEnd(records[..k], records[k], ",\n    ");
      assert records[..k] + [records[k]] == records;
      assert Piece(records[k], true) == ",\n    " + records[k];
    }
  }

  // ---- the directory

  lemma {:induction false} LengthBound(names: set<string>) returns (k: nat)
    ensures forall n :: n in names ==> |n| <= k
    decreases |names|
  {
    if names == {} {
      k := 0;
    } else {
      var n :| n in names;
      k := LengthBound(names - {n});
      k := if |n| > k then |n| else k;
      assert forall m :: m in names ==> m in names - {n} || m == n;
    }
  }

  lemma FreshNameExists(names: set<string>)
    ensures exists n: string :: n != "" && n !in names
  {
    var k := LengthBound(names);
    var n: string := seq(k + 1, i => 'x');
    assert n != "" && n !in names;
  }

  /** How many of the coming operations fail. */
  function Failing(faults: seq<bool>): nat {
    if faults == [] then 0 else (if faults[0] then 1 else 0) + Failing(faults[1..])
  }

  /** None of them fails exactly if the list holds no fault. */
  lemma {:induction false} NoneFailsIff(faults: seq<bool>)
    ensures Failing(faults) == 0 <==> true !in faults
    decreases |faults|
  {
    if faults == [] {
    } else {
      NoneFailsIff(faults[1..]);
      assert faults == [faults[0]] + faults[1..];
    }
  }

  /**
   The output directory. `taken` are the names that a fresh temporary or backup name never
   repeats. `faults` says which of the coming operations fail; those beyond its end do not.
   Operations have failed if and only if fewer failures are coming than before.
   */
  class Directory {
    var files: Files
    var taken: set<string>
    var faults: seq<bool>

    /** The failures still to come. */
    ghost function Coming(): nat reads this`faults { Failing(faults) }

    predicate Faulty() reads this`faults { faults != [] && faults[0] }

    method NewName() returns (n: string)
      modifies this`taken
      ensures n != "" && n !in files && n !in old(taken) && taken == old(taken) + {n}
    {
      FreshNameExists(files.Keys + taken);
      n :| n != "" && n !in files.Keys + taken;
      taken := taken + {n};
    }

    /** One operation: it succeeds unless the list says otherwise. Closing a file is no more than this. */
    method Attempt() returns (ok: bool)
      modifies this`faults
      ensures ok == !old(Faulty()) && faults == old(if faults == [] then [] else faults[1..])
      ensures Coming() == old(Coming()) - (if ok then 0 else 1)
    {
      ok := !Faulty();
      if faults != [] { faults := faults[1..]; }
    }

    /** os.MkdirAll and os.CreateTemp. */
    method CreateTemp() returns (ok: bool, n: string)
      modifies this
      ensures n != "" && n !in old(files) && n !in old(taken) && taken == old(taken) + {n}
      ensures files == if ok then old(files)[n := ""] else old(files)
      ensures Coming() <= old(Coming()) && ok == (Coming() == old(Coming()))
    {
      n := NewName();
      ok := Attempt();
      if ok { files := files[n := ""]; }
    }

    /** A write through a handle on the file at `n`; one that fails may have written any part. */
    method Write(n: string, data: string) returns (ok: bool)
      requires n in files
      modifies this`files, this`faults
      ensures exists part :: part <= data && (ok ==> part == data) && files == old(files)[n := old(files)[n] + part]
      ensures Coming() <= old(Coming()) && ok == (Coming() == old(Coming()))
    {
      ok := Attempt();
      var part :| part <= data && (ok ==> part == data);
      files := files[n := files[n] + part];
    }

    /** os.Rename; `absent` is the error that the file is not there. */
    method Rename(from: string, to: string) returns (ok: bool, absent: bool)
      modifies this`files, this`faults
      ensures Coming() <= old(Coming()) && (ok || absent) == (Coming() == old(Coming()))
      ensures if from in old(files) then !absent else !ok
      ensures files == if ok then (old(files) - {from})[to := old(files)[from]] else old(files)
    {
      ok := Attempt();
      ok, absent := ok && from in files, ok && from !in files;
      if ok {
        files := (files - {from})[to := files[from]];
      }
    }

    method Remove(n: string) returns (ok: bool, absent: bool)
      modifies this`files, this`faults
      ensures Coming() <= old(Coming()) && (ok || absent) == (Coming() == old(Coming()))
      ensures if n in old(files) then !absent else !ok
      ensures files == if ok then old(files) - {n} else old(files)
    {
      ok := Attempt();
      ok, absent := ok && n in files, ok && n !in files;
      if ok {
        files := files - {n};
      }
    }
  }

  /** restoreStagedPath: a backup that is not there is not an error. */
  method RestoreStagedPath(dir: Directory, backup: string, path: string) returns (ok: bool)
    modifies dir`files, dir`faults
    ensures ok ==> dir.files == if backup != "" && backup in old(dir.files) then (old(dir.files) - {backup})[path := old(dir.files[backup])] else old(dir.files)
    ensures !ok ==> dir.files == old(dir.files)
    ensures dir.Coming() <= old(dir.Coming()) && ok == (dir.Coming() == old(dir.Coming()))
  {
    if backup == "" { return true; }
    var renamed, absent := dir.Rename(backup, path);
    return renamed || absent;
  }

  class JSONIndexWriter {
    const path: string
    var tmpPath: string
    var backupPath: string
    var open: bool
    var started: bool
    var prepared: bool
    var committed: bool
    var completed: bool
    var finalized: bool
    var closed: bool
    var recordSeen: bool

    constructor (path: string)
      ensures this.path == path && IsNew()
    {
      this.path := path;
      tmpPath, backupPath, open, started, prepared, committed := "", "", false, false, false, false;
      completed, finalized, closed, recordSeen := false, false, false, false;
    }

    predicate IsNew() reads this {
      tmpPath == "" && backupPath == "" && !open && !started && !prepared && !committed && !completed && !finalized && !closed && !recordSeen
    }

    /** The names and flags of the writer are those of the layer; it can still be rolled back. */
    ghost predicate At(w: Shape) reads this {
      path == w.path && tmpPath == w.tmp && backupPath == w.backup && committed == w.published && started && !closed && !completed
      && (committed ==> !open)
    }

    /** What Close removes is there. */
    ghost predicate HasFiles(dir: Directory) reads this, dir {
      && (committed ==> tmpPath == "" && path in dir.files)
      && (tmpPath != "" ==> tmpPath in dir.files && (backupPath != "" ==> tmpPath != backupPath))
    }

    ghost predicate Recording(seen: bool) reads this {
      open && !prepared && !finalized && !committed && tmpPath != "" && backupPath == "" && recordSeen == seen
    }

    /**
     Start: on an error after the temporary file exists the writer closes itself. `writable`:
     the header's format is one that can be written.
     */
    method Start(dir: Directory, header: string, writable: bool) returns (ok: bool, ghost undone: bool, ghost w: Shape)
      requires started || IsNew()
      modifies this, dir
      ensures old(dir.taken) <= dir.taken && (ok ==> undone)
      ensures ok ==> !old(started) && At(w) && Recording(false)
      ensures ok ==> w == Shape(path, tmpPath, "", header, false, false) && w.tmp != "" && w.tmp !in old(dir.files) && w.tmp !in old(dir.taken)
      ensures ok ==> dir.files == old(dir.files)[w.tmp := header] && dir.taken == old(dir.taken) + {w.tmp}
      ensures !ok && undone ==> dir.files == old(dir.files)
      ensures old(started) ==> !ok && undone && unchanged(this)
      ensures dir.Coming() <= old(dir.Coming())
      ensures ok <==> !old(started) && writable && dir.Coming() == old(dir.Coming())
      ensures !undone ==> dir.Coming() + (if writable then 1 else 0) < old(dir.Coming())
    {
      w := Shape(path, "", "", "", false, false);
      if started { return false, true, w; }
      var n;
      ok, n := dir.CreateTemp();
      if !ok { return false, true, w; }
      tmpPath, open, started := n, true, true;
      if writable {
        ok := dir.Write(tmpPath, header);
        assert "" + header == header;
      }
      if !writable || !ok {
        ok, undone := Close(dir);
        return false, undone, w;
      }
      undone := true;
      w := Shape(path, tmpPath, "", header, false, false);
    }

    method Print(dir: Directory, data: string) returns (ok: bool)
      requires open ==> tmpPath in dir.files
      modifies dir`files, dir`faults
      ensures !open ==> dir.files == old(dir.files)
      ensures dir.Coming() <= old(dir.Coming()) && ok == (open && dir.Coming() == old(dir.Coming()))
      ensures open ==> exists part :: part <= data && (ok ==> part == data) && dir.files == old(dir.files)[tmpPath := old(dir.files)[tmpPath] + part]
    {
      if !open { return false; }
      ok := dir.Write(tmpPath, data);
    }

    /** AppendRecord, of a record as encoded, or of one that json.Marshal refuses. */
    method AppendRecord(dir: Directory, record: Option<string>) returns (ok: bool)
      requires open ==> tmpPath in dir.files
      modifies dir`files, dir`faults, this`recordSeen
      ensures !open ==> !ok && dir.files == old(dir.files)
      ensures open ==> tmpPath in dir.files && dir.files == old(dir.files)[tmpPath := dir.files[tmpPath]]
      ensures dir.Coming() <= old(dir.Coming())
      ensures ok <==> started && !finalized && open && record.Some? && dir.Coming() == old(dir.Coming())
      ensures ok ==> recordSeen && dir.files[tmpPath] == old(dir.files)[tmpPath] + Piece(record.value, old(recordSeen))
    {
      if !started || finalized { return false; }
      if record.None? { return false; }
      if recordSeen {
        ok := Print(dir, ",");
        if !ok { return; }
      }
      ok := Print(dir, "\n    " + record.value);
      if !ok { return; }
      assert (old(dir.files)[tmpPath] + ",") + ("\n    " + record.value) == old(dir.files)[tmpPath] + ("," + ("\n    " + record.value));
      recordSeen := true;
    }

    method Prepare(dir: Directory, trailer: string) returns (ok: bool)
      requires open ==> tmpPath in dir.files
      modifies dir`files, dir`faults, this`open, this`prepared
      ensures !old(open) ==> dir.files == old(dir.files)
      ensures dir.Coming() <= old(dir.Coming())
      ensures ok <==> started && (old(prepared) || (old(open) && dir.Coming() == old(dir.Coming())))
      ensures old(started && prepared) ==> unchanged(this) && unchanged(dir)
      ensures old(open) ==> tmpPath in dir.files && dir.files == old(dir.files)[tmpPath := dir.files[tmpPath]]
      ensures ok && !old(prepared) ==> old(open) && started && prepared && !open && dir.files[tmpPath] == old(dir.files)[tmpPath] + Closing(recordSeen) + trailer
    {
      if !started { return false; }
      if prepared { return true; }
      ok := Print(dir, Closing(recordSeen));
      if !ok { return; }
      ok := Print(dir, trailer);
      if !ok { return; }
      open := false;
      ok := dir.Attempt();   // closing the file
      if ok { prepared := true; }
    }

    /** Commit: what it leaves in each of its outcomes. */
    method Commit(dir: Directory) returns (ok: bool, ghost backup: string)
      requires tmpPath != path && (tmpPath != "" ==> tmpPath in dir.taken)
      modifies dir, this`backupPath, this`tmpPath, this`committed
      ensures !old(prepared) || old(committed) ==> ok == old(prepared) && unchanged(this) && unchanged(dir)
      ensures old(prepared && !committed) ==> backup != "" && backup !in old(dir.files) && backup !in old(dir.taken) && dir.taken == old(dir.taken) + {backup}
      ensures old(prepared && !committed) && ok ==> committed && tmpPath == "" && backupPath == if path in old(dir.files) then backup else old(backupPath)
      ensures old(prepared && !committed) && ok ==> old(tmpPath) in old(dir.files) && dir.files == Swapped(old(dir.files), path, old(tmpPath), backup)
      ensures dir.Coming() <= old(dir.Coming())
      ensures old(prepared && !committed) ==> (ok <==> old(tmpPath) in old(dir.files) && dir.Coming() == old(dir.Coming()))
      ensures !ok ==> committed == old(committed) && tmpPath == old(tmpPath)
      ensures !ok && old(backupPath) == "" ==>
        || (dir.files == old(dir.files) && backupPath in {"", backup})
        || (path in old(dir.files) && backupPath == backup && dir.files == MovedAway(old(dir.files), path, backup))
    {
      backup := "";
      if !prepared { return false, backup; }
      if committed { return true, backup; }
      var name := dir.NewName();
      backup := name;
      var staged, absent := dir.Rename(path, name);
      if !staged && !absent { return false, backup; }
      if staged { backupPath := name; }
      ghost var away := dir.files;
      var renamed, _ := dir.Rename(tmpPath, path);
      if !renamed {
        var restored := RestoreStagedPath(dir, backupPath, path);
        if restored && staged {
          assert dir.files == (away - {name})[path := away[name]] == old(dir.files);
        }
        return false, backup;
      }
      tmpPath, committed, ok := "", true, true;
    }

    /** Complete: past this call the writer no longer rolls back. */
    method Complete(dir: Directory) returns (ok: bool)
      modifies dir`files, dir`faults, this`completed, this`finalized, this`backupPath
      ensures old(!committed && prepared) ==> !ok && unchanged(this) && unchanged(dir)
      ensures old(committed || !prepared) ==> completed && (old(completed) || finalized)
      ensures dir.Coming() <= old(dir.Coming())
      ensures ok <==> old(committed || !prepared) && dir.Coming() == old(dir.Coming())
      ensures old(committed || !prepared) && old(completed) ==> unchanged(this) && unchanged(dir)
      ensures ok && !old(completed) ==> backupPath == "" && dir.files == if old(backupPath) != "" then old(dir.files) - {old(backupPath)} else old(dir.files)
      ensures !ok ==> dir.files == old(dir.files) && backupPath == old(backupPath) && (committed ==> backupPath != "")
    {
      if !committed && prepared { return false; }
      if completed { return true; }
      completed, finalized, ok := true, true, true;
      if backupPath != "" {
        var removed, absent := dir.Remove(backupPath);
        if !removed && !absent { return false; }
        backupPath := "";
      }
    }

    /** The part of Close for a writer that is not completed: its layer is peeled off. */
    method RollBack(dir: Directory) returns (undone: bool)
      modifies dir`files, dir`faults, this`tmpPath, this`backupPath, this`committed
      ensures undone ==> dir.files == Peeled(old(dir.files), Shape(path, old(tmpPath), old(backupPath), "", false, old(committed)))
      ensures dir.Coming() <= old(dir.Coming())
      ensures !undone && old(HasFiles(dir)) ==> dir.Coming() < old(dir.Coming())
    {
      undone := true;
      if committed {
        var removed, _ := dir.Remove(path);
        var restored := RestoreStagedPath(dir, backupPath, path);
        undone, backupPath, committed := removed && restored, "", false;
      } else if backupPath != "" {
        undone := RestoreStagedPath(dir, backupPath, path);
        backupPath := "";
      }
      if tmpPath != "" {
        var removed, _ := dir.Remove(tmpPath);
        undone, tmpPath := undone && removed, "";
      }
    }

    /**
     Close: peels the writer's layer off unless the writer is completed. `undone`: every rename
     and removal of that succeeded; closing the file handle may have failed all the same.
     */
    method Close(dir: Directory) returns (ok: bool, ghost undone: bool)
      modifies dir`files, dir`faults, this
      ensures closed && started == old(started) && (ok ==> undone)
      ensures !old(closed) && !old(completed) && undone ==> dir.files == Peeled(old(dir.files), Shape(path, old(tmpPath), old(backupPath), "", false, old(committed)))
      ensures old(closed) || (old(completed) && old(tmpPath) == "") ==> undone && dir.files == old(dir.files)
      ensures old(closed) || (old(completed) && old(tmpPath) == "" && !old(open)) ==> unchanged(dir)
      ensures dir.Coming() <= old(dir.Coming())
      ensures !undone && !old(completed) && old(HasFiles(dir)) ==> dir.Coming() < old(dir.Coming())
      ensures undone && (old(closed) || !old(open)) ==> ok
    {
      if closed { return true, true; }
      closed, ok, undone := true, true, true;
      if open {
        ok := dir.Attempt();
        open := false;
      }
      if !completed {
        var back := RollBack(dir);
        ok, undone := ok && back, back;
      } else if tmpPath != "" {
        var removed, _ := dir.Remove(tmpPath);
        tmpPath := "";
        ok, undone := ok && removed, removed;
      }
    }
  }
}
