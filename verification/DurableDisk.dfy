/**
 A directory as a crash sees it. `view` is what running programs see; `durable` is the
 directory at its last sync and `pending` the entry changes since. After a crash each
 name independently shows its durable entry or the result of any one of its pending
 changes, so any subset of the changes may have survived. A file body survives in full
 only once it is synced.
 */
module DurableDisk {
  import opened Wrappers

  type FileId = nat

  datatype Body = Body(data: string, synced: bool)

  /** An entry change: the name now shows `id`, or nothing. */
  datatype Change = Change(name: string, id: Option<FileId>)

  datatype Disk = Disk(view: map<string, FileId>, durable: map<string, FileId>, pending: seq<Change>, files: map<FileId, Body>)

  function Create(d: Disk, name: string, id: FileId): Disk {
    d.(view := d.view[name := id], pending := d.pending + [Change(name, Some(id))], files := d.files[id := Body("", false)])
  }

  function Append(d: Disk, id: FileId, data: string): Disk {
    if id in d.files then d.(files := d.files[id := Body(d.files[id].data + data, false)]) else d
  }

  function SyncData(d: Disk, id: FileId): Disk {
    if id in d.files then d.(files := d.files[id := d.files[id].(synced := true)]) else d
  }

  function Rename(d: Disk, src: string, dst: string): Disk
    requires src in d.view
  {
    d.(view := (d.view - {src})[dst := d.view[src]],
       pending := d.pending + [Change(src, None), Change(dst, Some(d.view[src]))])
  }

  function Remove(d: Disk, name: string): Disk {
    d.(view := d.view - {name}, pending := d.pending + [Change(name, None)])
  }

  function SyncDir(d: Disk): Disk { d.(durable := d.view, pending := []) }

  function Entry(m: map<string, FileId>, name: string): Option<FileId> { if name in m then Some(m[name]) else None }

  /** After a crash now, `name` may show `v`. */
  ghost predicate MayShow(d: Disk, name: string, v: Option<FileId>) {
    v == Entry(d.durable, name) || exists i :: 0 <= i < |d.pending| && d.pending[i] == Change(name, v)
  }

  ghost predicate CrashImage(d: Disk, img: map<string, FileId>) { forall n :: MayShow(d, n, Entry(img, n)) }

  /** What programs see is one of the things a crash may show. */
  ghost predicate Coherent(d: Disk) { forall n :: MayShow(d, n, Entry(d.view, n)) }

  /** The image shows `name` with exactly `data`, in full. */
  predicate Intact(d: Disk, img: map<string, FileId>, name: string, data: string) {
    name in img && img[name] in d.files && d.files[img[name]] == Body(data, true)
  }

  /**
   The reader marker is truthful: whatever survives of the directory, a manifest that
   is there is complete, and then every shard it stands for is there in full.
   */
  ghost predicate Safe(d: Disk, marker: string, manifest: string, shards: map<string, string>) {
    forall img :: CrashImage(d, img) && marker in img ==>
      Intact(d, img, marker, manifest) && forall n :: n in shards ==> Intact(d, img, n, shards[n])
  }

  /** No crash can show `marker`. */
  ghost predicate Unmarked(d: Disk, marker: string) { forall id :: !MayShow(d, marker, Some(id)) }

  /** Every crash shows each of these names with its full content. */
  ghost predicate Settled(d: Disk, shards: map<string, string>) {
    forall n :: n in shards ==>
      && Intact(d, d.durable, n, shards[n]) && (forall i :: 0 <= i < |d.pending| ==> d.pending[i].name != n)
  }

  /** Every marker a crash can show is the complete manifest. */
  ghost predicate MarkedWith(d: Disk, marker: string, manifest: string) {
    forall id :: MayShow(d, marker, Some(id)) ==> id in d.files && d.files[id] == Body(manifest, true)
  }

  lemma UnmarkedIsSafe(d: Disk, marker: string, manifest: string, shards: map<string, string>)
    requires Unmarked(d, marker)
    ensures Safe(d, marker, manifest, shards)
  {
    forall img | CrashImage(d, img) ensures marker !in img { assert MayShow(d, marker, Entry(img, marker)); }
  }

  lemma SettledIsSafe(d: Disk, marker: string, manifest: string, shards: map<string, string>)
    requires MarkedWith(d, marker, manifest) && Settled(d, shards)
    ensures Safe(d, marker, manifest, shards)
  {
    forall img | CrashImage(d, img) && marker in img
      ensures Intact(d, img, marker, manifest) && forall n :: n in shards ==> Intact(d, img, n, shards[n]) {
      assert MayShow(d, marker, Entry(img, marker));
      forall n | n in shards ensures Intact(d, img, n, shards[n]) { assert MayShow(d, n, Entry(img, n)); }
    }
  }

  /** Changing an entry neither settles nor unsettles another name. */
  lemma OtherNamesKept(d: Disk, d': Disk, marker: string, shards: map<string, string>, changed: set<string>)
    requires d'.durable == d.durable && d.pending <= d'.pending
    requires forall i :: |d.pending| <= i < |d'.pending| ==> d'.pending[i].name in changed
    requires changed !! shards.Keys && forall id :: id in d.files && d.files[id].synced ==> id in d'.files && d'.files[id] == d.files[id]
    ensures Settled(d, shards) ==> Settled(d', shards)
    ensures marker !in changed && Unmarked(d, marker) ==> Unmarked(d', marker)
  {
    if marker !in changed && Unmarked(d, marker) {
      forall id ensures !MayShow(d', marker, Some(id)) { assert !MayShow(d, marker, Some(id)); }
    }
  }

  /** A directory sync makes the view the only thing a crash can show. */
  lemma SyncedShowsView(d: Disk, img: map<string, FileId>)
    requires CrashImage(SyncDir(d), img)
    ensures img == d.view
  {
    forall n ensures n in img <==> n in d.view
      ensures n in img ==> img[n] == d.view[n] {
      assert MayShow(SyncDir(d), n, Entry(img, n));
    }
  }

  /** Once a marker may show, removing a shard's entry breaks the promise at once; before that it never does. */
  lemma RemovingShardIsSafeIff(d: Disk, marker: string, manifest: string, shards: map<string, string>, n: string)
    requires n in shards && n != marker
    ensures Safe(Remove(d, n), marker, manifest, shards) <==> Unmarked(d, marker)
  {
    var d' := Remove(d, n);
    if Unmarked(d, marker) {
      OtherNamesKept(d, d', marker, map[], {n});
      UnmarkedIsSafe(d', marker, manifest, shards);
    } else {
      var id :| MayShow(d, marker, Some(id));
      var img := (d.durable - {n})[marker := id];
      forall m ensures MayShow(d', m, Entry(img, m)) {
        if m == n { assert d'.pending[|d.pending|] == Change(n, None); }
        else if m == marker {
          if Some(id) != Entry(d.durable, marker) {
            var i :| 0 <= i < |d.pending| && d.pending[i] == Change(marker, Some(id));
            assert d'.pending[i] == Change(marker, Some(id));
          }
        }
      }
      assert CrashImage(d', img) && !Intact(d', img, n, shards[n]);
    }
  }

  lemma CreateCoherent(d: Disk, name: string, id: FileId)
    requires Coherent(d)
    ensures Coherent(Create(d, name, id))
  {
    var d' := Create(d, name, id);
    forall n ensures MayShow(d', n, Entry(d'.view, n)) {
      if n == name { assert d'.pending[|d.pending|] == Change(n, Some(id)); } else { ShowsKept(d, d', n, Entry(d.view, n)); }
    }
  }

  lemma RemoveCoherent(d: Disk, name: string)
    requires Coherent(d)
    ensures Coherent(Remove(d, name))
  {
    var d' := Remove(d, name);
    forall n ensures MayShow(d', n, Entry(d'.view, n)) {
      if n == name { assert d'.pending[|d.pending|] == Change(n, None); } else { ShowsKept(d, d', n, Entry(d.view, n)); }
    }
  }

  lemma RenameCoherent(d: Disk, src: string, dst: string)
    requires Coherent(d) && src in d.view
    ensures Coherent(Rename(d, src, dst))
  {
    var d' := Rename(d, src, dst);
    forall n ensures MayShow(d', n, Entry(d'.view, n)) {
      if n == dst { assert d'.pending[|d.pending| + 1] == Change(n, Some(d.view[src])); }
      else if n == src { assert d'.pending[|d.pending|] == Change(n, None); }
      else { ShowsKept(d, d', n, Entry(d.view, n)); }
    }
  }

  /** More pending changes can only add to what a crash may show. */
  lemma ShowsKept(d: Disk, d': Disk, n: string, v: Option<FileId>)
    requires MayShow(d, n, v) && d'.durable == d.durable && d.pending <= d'.pending
    ensures MayShow(d', n, v)
  {
    if v != Entry(d.durable, n) {
      var i :| 0 <= i < |d.pending| && d.pending[i] == Change(n, v);
      assert d'.pending[i] == Change(n, v);
    }
  }
}
