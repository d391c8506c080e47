/**
 The local aggregate commit of `cmd/sumpter/commands/durable_commit.go` in durable mode,
 over a directory whose every operation can fail and after whose every operation the
 machine can stop. `Directory.trace` collects each directory state the run passes
 through; what a crash may show in each of them is `DurableDisk`.
 */
module DurableCommit {
  import opened CommitNames
  import opened DurableDisk
  import opened Wrappers

  /** The steps a failure can be put before, as the source names them. */
  datatype Point =
    | OutputDirSync | OwnershipCreate | OwnershipSync | OwnershipClose | OwnershipDirSync | OwnershipRemove | OutputDirRead
    | ShardOpen | ShardWrite | ShardSync | ShardClose | ShardRename | ShardsDirSync
    | TempCreate | TempWrite | TempSync | TempClose | TempRename
    | ManifestDirSync | ManifestInvalidate | ManifestInvalidateDirSync | CleanupRemove | CleanupDirSync

  /**
   The filesystem seam. `doomed` are steps that always fail, `faults` says which of the coming
   operations fail as well; those beyond its end do not. An operation that fails changes nothing
   a crash could not show anyway.
   */
  class Directory {
    var disk: Disk
    var faults: seq<bool>
    const doomed: set<Point>
    ghost var trace: seq<Disk>

    ghost predicate Valid() reads this {
      |trace| > 0 && trace[|trace| - 1] == disk && Coherent(disk)
    }

    constructor (d: Disk, faults: seq<bool>, doomed: set<Point>)
      requires Coherent(d)
      ensures Valid() && disk == d && trace == [d] && this.faults == faults && this.doomed == doomed
    {
      disk, trace, this.faults, this.doomed := d, [d], faults, doomed;
    }

    predicate Faulty(point: Point) reads this { point in doomed || (faults != [] && faults[0]) }

    function Later(): seq<bool> reads this { if faults == [] then [] else faults[1..] }

    /** None of the next operations fails if they are at these steps. */
    predicate Clear(points: seq<Point>) reads this {
      forall k :: 0 <= k < |points| ==> Sound(faults, doomed, k, points[k])
    }

    /** Exactly these steps fail from now on. */
    predicate Only(points: set<Point>) reads this { faults == [] && doomed == points }

    /** No step fails from now on but, perhaps, the two syncs of an unconfirmed manifest. */
    predicate Calm() reads this { faults == [] && doomed <= SYNCS }

    /** One operation that changes the directory to d, unless a fault or the directory forbids it. */
    method Try(point: Point, possible: bool, d: Disk) returns (ok: bool)
      requires Valid() && (possible ==> Coherent(d))
      modifies this
      ensures Valid() && faults == old(Later()) && ok == (possible && !old(Faulty(point)))
      ensures if ok then disk == d && trace == old(trace) + [d] else disk == old(disk) && trace == old(trace)
    {
      ok := possible && !Faulty(point);
      faults := Later();
      if ok { disk, trace := d, trace + [d]; }
    }

    /** Closing a file, or reading the directory: no change, but it can fail. */
    method Pass(point: Point) returns (ok: bool)
      requires Valid()
      modifies this
      ensures Valid() && faults == old(Later()) && ok == !old(Faulty(point)) && disk == old(disk) && trace == old(trace)
    {
      ok := !Faulty(point);
      faults := Later();
    }

    method CreateExclusive(point: Point, name: string) returns (ok: bool, id: FileId)
      requires Valid()
      modifies this
      ensures Valid() && old(trace) <= trace && faults == old(Later()) && ok == (name !in old(disk.view) && !old(Faulty(point)))
      ensures ok ==> id !in old(disk.files) && disk == Create(old(disk), name, id) && trace == old(trace) + [disk]
      ensures !ok ==> disk == old(disk) && trace == old(trace)
    {
      FreshId(disk.files.Keys);
      id :| id !in disk.files.Keys;
      CreateCoherent(disk, name, id);
      ok := Try(point, name !in disk.view, Create(disk, name, id));
    }

    /** A write that fails may have written any part. */
    method Write(point: Point, id: FileId, data: string) returns (ok: bool)
      requires Valid()
      modifies this
      ensures Valid() && faults == old(Later()) && ok == !old(Faulty(point))
      ensures exists k :: 0 <= k <= |data| && (ok ==> k == |data|) && disk == Append(old(disk), id, data[..k])
      ensures trace == old(trace) + [disk]
    {
      ok := !Faulty(point);
      faults := Later();
      var k :| 0 <= k <= |data| && (ok ==> k == |data|);
      var d := Append(disk, id, data[..k]);
      assert forall n, v :: MayShow(d, n, v) <==> MayShow(disk, n, v);
      disk, trace := d, trace + [d];
    }

    method SyncFile(point: Point, id: FileId) returns (ok: bool)
      requires Valid()
      modifies this
      ensures Valid() && old(trace) <= trace && faults == old(Later()) && ok == !old(Faulty(point))
      ensures if ok then disk == SyncData(old(disk), id) && trace == old(trace) + [disk] else disk == old(disk) && trace == old(trace)
    {
      assert forall n, v :: MayShow(SyncData(disk, id), n, v) <==> MayShow(disk, n, v);
      ok := Try(point, true, SyncData(disk, id));
    }

    method Move(point: Point, src: string, dst: string) returns (ok: bool)
      requires Valid()
      modifies this
      ensures Valid() && old(trace) <= trace && faults == old(Later()) && ok == (src in old(disk.view) && !old(Faulty(point)))
      ensures ok ==> disk == Rename(old(disk), src, dst) && trace == old(trace) + [disk]
      ensures !ok ==> disk == old(disk) && trace == old(trace)
    {
      if src !in disk.view {
        faults := Later();
        return false;
      }
      RenameCoherent(disk, src, dst);
      ok := Try(point, true, Rename(disk, src, dst));
    }

    /** os.Remove; `absent` reports the not-exist error callers ignore. */
    method Unlink(point: Point, name: string) returns (ok: bool, absent: bool)
      requires Valid()
      modifies this
      ensures Valid() && old(trace) <= trace && faults == old(Later())
      ensures ok == (name in old(disk.view) && !old(Faulty(point))) && absent == (name !in old(disk.view) && !old(Faulty(point)))
      ensures ok ==> disk == Remove(old(disk), name) && trace == old(trace) + [disk]
      ensures !ok ==> disk == old(disk) && trace == old(trace)
    {
      RemoveCoherent(disk, name);
      absent := name !in disk.view && !Faulty(point);
      ok := Try(point, name in disk.view, Remove(disk, name));
    }

    method Sync(point: Point) returns (ok: bool)
      requires Valid()
      modifies this
      ensures Valid() && old(trace) <= trace && faults == old(Later()) && ok == !old(Faulty(point))
      ensures if ok then disk == SyncDir(old(disk)) && trace == old(trace) + [disk] else disk == old(disk) && trace == old(trace)
    {
      ok := Try(point, true, SyncDir(disk));
    }
  }

  /** The k-th of the coming operations does not fail at this step. */
  predicate Sound(faults: seq<bool>, doomed: set<Point>, k: nat, point: Point) {
    point !in doomed && (k < |faults| ==> !faults[k])
  }

  /** The steps of taking the lock. */
  const TAKING := [OutputDirSync, OwnershipCreate, OwnershipSync, OwnershipClose, OwnershipDirSync]

  lemma TakingIsClear(f: seq<bool>, bad: set<Point>)
    ensures (forall k :: 0 <= k < |TAKING| ==> Sound(f, bad, k, TAKING[k])) <==>
      && Sound(f, bad, 0, OutputDirSync) && Sound(f, bad, 1, OwnershipCreate) && Sound(f, bad, 2, OwnershipSync)
      && Sound(f, bad, 3, OwnershipClose) && Sound(f, bad, 4, OwnershipDirSync)
  {
    assert TAKING[0] == OutputDirSync && TAKING[1] == OwnershipCreate && TAKING[2] == OwnershipSync;
    assert TAKING[3] == OwnershipClose && TAKING[4] == OwnershipDirSync;
  }

  lemma PreparingIsClear(f: seq<bool>, bad: set<Point>)
    ensures (forall k :: 0 <= k < |TAKING + [OutputDirRead]| ==> Sound(f, bad, k, (TAKING + [OutputDirRead])[k])) <==>
      (forall k :: 0 <= k < |TAKING| ==> Sound(f, bad, k, TAKING[k])) && Sound(f, bad, 5, OutputDirRead)
  {
    var all := TAKING + [OutputDirRead];
    assert all[5] == OutputDirRead && forall k :: 0 <= k < |TAKING| ==> all[k] == TAKING[k];
  }

  function Rest(faults: seq<bool>, k: nat): seq<bool> { if k <= |faults| then faults[k..] else [] }

  /** The two directory syncs of an unconfirmed manifest. */
  const SYNCS := {ManifestDirSync, ManifestInvalidateDirSync}

  lemma FreshId(ids: set<FileId>)
    ensures exists id: FileId :: id !in ids
  {
    var b := UpperBound(ids);
    assert b !in ids;
  }

  datatype Kind = Sidecar | Manifest

  /** The names in a directory that an aggregate commit leaves behind. */
  function Residue(view: map<string, FileId>): set<string> { set n | n in view && ArtifactName(n) }

  lemma LockIsNoResidue(before: map<string, FileId>, after: map<string, FileId>)
    requires LOCK in after && after - {LOCK} == before
    ensures Residue(after) == Residue(before)
  {
    LockIsNoArtifact();
    assert after.Keys == before.Keys + {LOCK};
  }

  /** A clean scan of a synced directory: no artifact is there, and none can come back. */
  lemma CleanScan(d: Disk)
    requires d.pending == [] && d.durable == d.view && Residue(d.view) == {}
    ensures Unmarked(d, MARKER)
  {
    assert MARKER in d.view ==> MARKER in Residue(d.view);
    assert MARKER != LOCK by { assert LOCK[0] != MARKER[0]; }
    forall id ensures !MayShow(d, MARKER, Some(id)) { assert MARKER !in d.view; }
  }

  /** What every directory state before the marker rename keeps. */
  ghost predicate Quiet(d: Disk, shards: map<string, string>) { Unmarked(d, MARKER) && Settled(d, shards) }

  /** Every one of these names is visible with its full, synced content. */
  ghost predicate Visible(d: Disk, files: map<string, string>) { forall n :: n in files ==> Intact(d, d.view, n, files[n]) }

  /** Only these names went; bodies, and what a crash shows under other names, stayed. */
  ghost predicate RemovedSince(before: Disk, after: Disk, names: set<string>) {
    && after.files == before.files
    && (forall n :: n in after.view ==> n in before.view && after.view[n] == before.view[n])
    && (forall n :: n in before.view && n !in names ==> n in after.view)
    && (forall n, v :: MayShow(after, n, v) && (v.Some? || n !in names) ==> MayShow(before, n, v))
  }

  lemma RemoveIsRemoval(d: Disk, n: string)
    ensures RemovedSince(d, Remove(d, n), {n})
  {
    var d' := Remove(d, n);
    forall m, v | MayShow(d', m, v) && (v.Some? || m != n) ensures MayShow(d, m, v) {
      if v != Entry(d.durable, m) {
        var i :| 0 <= i < |d'.pending| && d'.pending[i] == Change(m, v);
        assert d.pending[i] == Change(m, v);
      }
    }
  }

  lemma SyncIsRemoval(d: Disk)
    requires Coherent(d)
    ensures RemovedSince(d, SyncDir(d), {})
  {
  }

  lemma RemovalComposes(a: Disk, b: Disk, c: Disk, first: set<string>, second: set<string>)
    requires RemovedSince(a, b, first) && RemovedSince(b, c, second)
    ensures RemovedSince(a, c, first + second)
  {
  }

  /** Every crash shows each shard in full, whatever else it shows. */
  ghost predicate Certain(d: Disk, shards: map<string, string>) {
    forall n, v :: n in shards && MayShow(d, n, v) ==> v.Some? && v.value in d.files && d.files[v.value] == Body(shards[n], true)
  }

  /** Every crash shows each shard in full, and no marker but the complete manifest. */
  ghost predicate Grounded(d: Disk, manifest: string, shards: map<string, string>) {
    MarkedWith(d, MARKER, manifest) && Certain(d, shards) && MARKER !in shards && LOCK !in shards
  }

  lemma GroundedIsSafe(d: Disk, manifest: string, shards: map<string, string>)
    requires Grounded(d, manifest, shards)
    ensures Safe(d, MARKER, manifest, shards)
  {
    forall img | CrashImage(d, img) && MARKER in img
      ensures Intact(d, img, MARKER, manifest) && forall n :: n in shards ==> Intact(d, img, n, shards[n]) {
      assert MayShow(d, MARKER, Entry(img, MARKER));
      forall n | n in shards ensures Intact(d, img, n, shards[n]) { assert MayShow(d, n, Entry(img, n)); }
    }
  }

  lemma GroundedKept(a: Disk, b: Disk, names: set<string>, manifest: string, shards: map<string, string>)
    requires Grounded(a, manifest, shards) && RemovedSince(a, b, names) && names !! shards.Keys
    ensures Grounded(b, manifest, shards) && Safe(b, MARKER, manifest, shards)
  {
    forall n, v | n in shards && MayShow(b, n, v)
      ensures v.Some? && v.value in b.files && b.files[v.value] == Body(shards[n], true) {
      assert n !in names && MayShow(a, n, v);
    }
    forall id | MayShow(b, MARKER, Some(id)) ensures id in b.files && b.files[id] == Body(manifest, true) {
      assert MayShow(a, MARKER, Some(id));
    }
    GroundedIsSafe(b, manifest, shards);
  }

  lemma SettledIsGrounded(d: Disk, manifest: string, shards: map<string, string>)
    requires MarkedWith(d, MARKER, manifest) && Settled(d, shards) && MARKER !in shards && LOCK !in shards
    ensures Grounded(d, manifest, shards)
  {
  }

  lemma GroundedIsVisible(d: Disk, manifest: string, shards: map<string, string>)
    requires Grounded(d, manifest, shards) && Coherent(d)
    ensures shards.Keys <= d.view.Keys
  {
    forall n | n in shards ensures n in d.view { assert MayShow(d, n, Entry(d.view, n)); }
  }

  /** No state the run passed through since `from` can show a marker. */
  ghost predicate UnmarkedFrom(trace: seq<Disk>, from: nat) { forall i :: from <= i < |trace| ==> Unmarked(trace[i], MARKER) }

  lemma RemovalKeepsUnmarked(a: Disk, b: Disk, names: set<string>)
    requires RemovedSince(a, b, names) && Unmarked(a, MARKER)
    ensures Unmarked(b, MARKER)
  {
    forall id ensures !MayShow(b, MARKER, Some(id)) { assert !MayShow(a, MARKER, Some(id)); }
  }

  /** Removing an entry takes nothing away from what a crash may show. */
  lemma RemoveKeepsMarked(d: Disk, n: string)
    requires !Unmarked(d, MARKER)
    ensures !Unmarked(Remove(d, n), MARKER)
  {
    var id :| MayShow(d, MARKER, Some(id));
    ShowsKept(d, Remove(d, n), MARKER, Some(id));
  }

  /** All states the run passed through since `from` can show no marker and keep the shards. */
  ghost predicate QuietFrom(trace: seq<Disk>, from: nat, shards: map<string, string>) {
    forall i :: from <= i < |trace| ==> Quiet(trace[i], shards)
  }

  ghost predicate AlwaysSafe(trace: seq<Disk>, from: nat, manifest: string, shards: map<string, string>) {
    forall i :: from <= i < |trace| ==> Safe(trace[i], MARKER, manifest, shards)
  }

  /** The steps of a temporary file and of a lock leave marker and shards alone. */
  lemma CreateIsQuiet(d: Disk, name: string, id: FileId, shards: map<string, string>)
    requires Quiet(d, shards) && name != MARKER && name !in shards && id !in d.files
    ensures Quiet(Create(d, name, id), shards)
  {
    OtherNamesKept(d, Create(d, name, id), MARKER, shards, {name});
  }

  lemma BodyIsQuiet(d: Disk, id: FileId, data: string, shards: map<string, string>)
    requires Quiet(d, shards) && (id in d.files ==> !d.files[id].synced)
    ensures Quiet(Append(d, id, data), shards)
    ensures Quiet(SyncData(d, id), shards)
  {
    OtherNamesKept(d, Append(d, id, data), MARKER, shards, {});
    OtherNamesKept(d, SyncData(d, id), MARKER, shards, {});
  }

  lemma RemoveIsQuiet(d: Disk, name: string, shards: map<string, string>)
    requires Quiet(d, shards) && name != MARKER && name !in shards
    ensures Quiet(Remove(d, name), shards)
  {
    OtherNamesKept(d, Remove(d, name), MARKER, shards, {name});
  }

  lemma RenameIsQuiet(d: Disk, src: string, dst: string, shards: map<string, string>)
    requires Quiet(d, shards) && src in d.view && src !in shards && dst !in shards && src != MARKER
    ensures Settled(Rename(d, src, dst), shards)
    ensures dst != MARKER ==> Quiet(Rename(d, src, dst), shards)
    ensures dst == MARKER && d.view[src] in d.files ==>
              forall id :: MayShow(Rename(d, src, dst), MARKER, Some(id)) ==> id == d.view[src]
  {
    var d' := Rename(d, src, dst);
    OtherNamesKept(d, d', MARKER, shards, {src, dst});
    if dst == MARKER {
      forall id | MayShow(d', MARKER, Some(id)) ensures id == d.view[src] {
        if id != d.view[src] { assert MayShow(d, MARKER, Some(id)); }
      }
    }
  }

  /** Every name occurs once over both lists. */
  predicate NoClash(stages: seq<string>, finals: seq<string>) {
    && (forall i, j :: 0 <= i < j < |stages| ==> stages[i] != stages[j])
    && (forall i, j :: 0 <= i < j < |finals| ==> finals[i] != finals[j])
    && (forall i, j :: 0 <= i < |stages| && 0 <= j < |finals| ==> stages[i] != finals[j])
  }

  /** The first `i` shards stand at their final names, the others still at their staging names. */
  ghost predicate RenamedTo(v0: map<string, FileId>, v: map<string, FileId>, stages: seq<string>, finals: seq<string>, i: nat) {
    && i <= |stages| == |finals|
    && (forall j :: 0 <= j < i ==> stages[j] in v0 && finals[j] in v && v[finals[j]] == v0[stages[j]])
    && (forall j :: 0 <= j < i ==> stages[j] !in v)
    && (forall j :: i <= j < |stages| ==> Entry(v, stages[j]) == Entry(v0, stages[j]))
    && (forall n :: n !in stages && n !in finals ==> Entry(v, n) == Entry(v0, n))
  }

  lemma RenameOne(v0: map<string, FileId>, d: Disk, stages: seq<string>, finals: seq<string>, i: nat)
    requires i < |stages| && RenamedTo(v0, d.view, stages, finals, i) && NoClash(stages, finals) && stages[i] in d.view
    ensures RenamedTo(v0, Rename(d, stages[i], finals[i]).view, stages, finals, i + 1)
  {
  }

  /** Synced bodies stay as they are. */
  ghost predicate KeepsBodies(before: map<FileId, Body>, after: map<FileId, Body>) {
    forall id :: id in before && before[id].synced ==> id in after && after[id] == before[id]
  }

  /** The marker may come back: the run since `from` has been safe exactly while every shard is still there. */
  ghost predicate Endangered(trace: seq<Disk>, from: nat, d: Disk, manifest: string, shards: map<string, string>) {
    if shards.Keys <= d.view.Keys then Grounded(d, manifest, shards) && AlwaysSafe(trace, from, manifest, shards)
    else !AlwaysSafe(trace, from, manifest, shards)
  }

  lemma EndangeredStep(t: seq<Disk>, t': seq<Disk>, from: nat, d: Disk, d': Disk, name: string, removed: bool, manifest: string, shards: map<string, string>)
    requires Endangered(t, from, d, manifest, shards) && MARKER !in shards && from <= |t|
    requires if removed then d' == Remove(d, name) && t' == t + [d'] && name in d.view else d' == d && t' == t
    requires shards.Keys <= d.view.Keys && (name in shards ==> !removed) ==> Grounded(d', manifest, shards) && Safe(d', MARKER, manifest, shards)
    requires name in shards && removed ==> !Safe(d', MARKER, manifest, shards)
    ensures Endangered(t', from, d', manifest, shards)
  {
    if removed {
      assert t'[|t|] == d' && forall i :: from <= i < |t| ==> t'[i] == t[i];
      if name in shards { assert name !in d'.view; }
      else { assert shards.Keys <= d'.view.Keys <==> shards.Keys <= d.view.Keys; }
    }
  }

  /** The two parts of a clean-up that starts grounded. */
  lemma CleanUpIsSafeIff(from: nat, t2: seq<Disk>, t3: seq<Disk>, d1: Disk, d2: Disk, d3: Disk, manifest: string, shards: map<string, string>)
    requires from <= |t2| && t2 <= t3 && (forall n :: n in d3.view ==> n in d2.view)
    requires Unmarked(d1, MARKER) ==> UnmarkedFrom(t2, from) && UnmarkedFrom(t3, |t2|)
    requires !Unmarked(d1, MARKER) ==> Endangered(t2, from, d2, manifest, shards)
    requires Grounded(d2, manifest, shards) ==> AlwaysSafe(t3, |t2|, manifest, shards) && shards.Keys <= d3.view.Keys
    ensures AlwaysSafe(t3, from, manifest, shards) <==> Unmarked(d1, MARKER) || shards.Keys <= d3.view.Keys
  {
    assert forall i :: 0 <= i < |t2| ==> t3[i] == t2[i];
    if Unmarked(d1, MARKER) {
      forall i | from <= i < |t3| ensures Safe(t3[i], MARKER, manifest, shards) {
        assert Unmarked(t3[i], MARKER);
        UnmarkedIsSafe(t3[i], MARKER, manifest, shards);
      }
    }
  }

  lemma InvalidatedIsGrounded(d: Disk, d': Disk, trace: seq<Disk>, from: nat, names: set<string>, manifest: string, shards: map<string, string>)
    requires Grounded(d, manifest, shards) && names <= {MARKER} && RemovedSince(d, d', names)
    requires forall i :: from <= i < |trace| ==> RemovedSince(d, trace[i], {MARKER})
    ensures Grounded(d', manifest, shards) && AlwaysSafe(trace, from, manifest, shards)
  {
    GroundedKept(d, d', names, manifest, shards);
    forall i | from <= i < |trace| ensures Safe(trace[i], MARKER, manifest, shards) {
      GroundedKept(d, trace[i], {MARKER}, manifest, shards);
    }
  }

  class LocalAggregateCommit {
    const dir: Directory
    var prepared: bool
    var committed: bool
    var lockHeld: bool
    var markerRenamed: bool
    var stagePaths: seq<string>
    var finalPaths: seq<string>
    var sidecarPaths: seq<string>
    var tempPaths: seq<string>

    constructor (dir: Directory)
      ensures this.dir == dir && !prepared && !committed && !lockHeld && !markerRenamed
      ensures stagePaths == finalPaths == sidecarPaths == tempPaths == []
    {
      this.dir := dir;
      prepared, committed, lockHeld, markerRenamed := false, false, false, false;
      stagePaths, finalPaths, sidecarPaths, tempPaths := [], [], [], [];
    }

    /** The paths abort removes. */
    function Owned(): seq<string> reads this { tempPaths + stagePaths + finalPaths + sidecarPaths }

    /** releaseLock. */
    method ReleaseLock() returns (ok: bool)
      requires dir.Valid()
      modifies this`lockHeld, dir
      ensures dir.Valid() && old(dir.trace) <= dir.trace
      ensures ok ==> !lockHeld
      ensures if ok && old(lockHeld)
              then LOCK in old(dir.disk.view) && dir.disk == Remove(old(dir.disk), LOCK) && dir.trace == old(dir.trace) + [dir.disk]
              else dir.disk == old(dir.disk) && dir.trace == old(dir.trace) && lockHeld == old(lockHeld)
      ensures old(dir.Calm()) ==> dir.faults == [] && (old(lockHeld) ==> LOCK in old(dir.disk.view)) == ok
    {
      if !lockHeld { return true; }
      var absent;
      ok, absent := dir.Unlink(OwnershipRemove, LOCK);
      if ok { lockHeld := false; }
    }

    /** invalidateMarker: nil means that no crash can show the marker any more. */
    method InvalidateMarker() returns (ok: bool)
      requires dir.Valid()
      modifies this`markerRenamed, dir
      ensures dir.Valid() && old(dir.trace) <= dir.trace
      ensures !old(markerRenamed) ==> ok && !markerRenamed && dir.disk == old(dir.disk) && dir.trace == old(dir.trace) && dir.faults == old(dir.faults)
      ensures Unmarked(dir.disk, MARKER) <==> Unmarked(old(dir.disk), MARKER) || (old(markerRenamed) && ok)
      ensures ok ==> !markerRenamed
      ensures forall i :: |old(dir.trace)| <= i < |dir.trace| ==> RemovedSince(old(dir.disk), dir.trace[i], {MARKER})
      ensures Unmarked(old(dir.disk), MARKER) ==> UnmarkedFrom(dir.trace, |old(dir.trace)|) && Unmarked(dir.disk, MARKER)
      ensures RemovedSince(old(dir.disk), dir.disk, if old(markerRenamed) then {MARKER} else {})
      ensures old(markerRenamed) && MARKER in old(dir.disk.view) && old(dir.Only(SYNCS)) ==> !markerRenamed && !ok && dir.faults == []
    {
      if !markerRenamed { return true; }
      var absent;
      ok, absent := dir.Unlink(ManifestInvalidate, MARKER);
      if !ok && !absent { return; }
      RemoveIsRemoval(old(dir.disk), MARKER);
      ghost var d1 := dir.disk;
      markerRenamed := false;
      ok := dir.Sync(ManifestInvalidateDirSync);
      SyncIsRemoval(d1);
      RemovalComposes(old(dir.disk), d1, dir.disk, {MARKER}, {});
      assert {MARKER} + {} == {MARKER};
      if Unmarked(old(dir.disk), MARKER) {
        RemovalKeepsUnmarked(old(dir.disk), d1, {MARKER});
        RemovalKeepsUnmarked(old(dir.disk), dir.disk, {MARKER});
      } else {
        RemoveKeepsMarked(old(dir.disk), MARKER);
      }
    }

    /** One turn of abort's removal loop, when a crash can still show the marker. */
    method RemoveOne(name: string, ghost manifest: string, ghost shards: map<string, string>) returns (removed: bool, absent: bool)
      requires dir.Valid()
      modifies dir
      ensures dir.Valid() && old(dir.trace) <= dir.trace && dir.faults == old(dir.Later())
      ensures removed == (name in old(dir.disk.view) && !old(dir.Faulty(CleanupRemove))) && absent == (name !in old(dir.disk.view) && !old(dir.Faulty(CleanupRemove)))
      ensures removed ==> dir.disk == Remove(old(dir.disk), name) && dir.trace == old(dir.trace) + [dir.disk]
      ensures !removed ==> dir.disk == old(dir.disk) && dir.trace == old(dir.trace)
      ensures RemovedSince(old(dir.disk), dir.disk, {name})
      ensures Unmarked(dir.disk, MARKER) <==> Unmarked(old(dir.disk), MARKER)
      ensures Grounded(old(dir.disk), manifest, shards) && (name in shards ==> !removed) ==>
                Grounded(dir.disk, manifest, shards) && Safe(dir.disk, MARKER, manifest, shards)
      ensures !Unmarked(old(dir.disk), MARKER) && MARKER !in shards && name in shards && removed ==> !Safe(dir.disk, MARKER, manifest, shards)
    {
      ghost var d := dir.disk;
      removed, absent := dir.Unlink(CleanupRemove, name);
      RemoveIsRemoval(d, name);
      if Unmarked(d, MARKER) { RemovalKeepsUnmarked(d, dir.disk, {name}); } else { RemoveKeepsMarked(d, name); }
      if Grounded(d, manifest, shards) && (name in shards ==> !removed) {
        if removed { GroundedKept(d, dir.disk, {name}, manifest, shards); } else { GroundedIsSafe(d, manifest, shards); }
      }
      if name in shards && MARKER !in shards { RemovingShardIsSafeIff(d, MARKER, manifest, shards, name); }
    }

    /** The removal loop of abort; it goes on when a removal fails. */
    method RemoveAll(owned: seq<string>, ghost manifest: string, ghost shards: map<string, string>) returns (ok: bool)
      requires dir.Valid()
      modifies dir
      ensures dir.Valid() && old(dir.trace) <= dir.trace
      ensures RemovedSince(old(dir.disk), dir.disk, set n | n in owned)
      ensures Unmarked(old(dir.disk), MARKER) ==> UnmarkedFrom(dir.trace, |old(dir.trace)|) && Unmarked(dir.disk, MARKER)
      ensures !Unmarked(old(dir.disk), MARKER) && Grounded(old(dir.disk), manifest, shards) ==>
                Endangered(dir.trace, |old(dir.trace)|, dir.disk, manifest, shards)
      ensures ok ==> forall n :: n in owned ==> n !in dir.disk.view
      ensures old(dir.Calm()) ==> ok && dir.faults == []
    {
      ok := true;
      ghost var start, from := dir.disk, |dir.trace|;
      if Grounded(start, manifest, shards) { GroundedIsVisible(start, manifest, shards); }
      for i := 0 to |owned|
        invariant dir.Valid() && old(dir.trace) <= dir.trace && from == |old(dir.trace)|
        invariant RemovedSince(start, dir.disk, set n | n in owned)
        invariant Unmarked(dir.disk, MARKER) <==> Unmarked(start, MARKER)
        invariant Unmarked(start, MARKER) ==> UnmarkedFrom(dir.trace, from)
        invariant !Unmarked(start, MARKER) && Grounded(start, manifest, shards) ==> Endangered(dir.trace, from, dir.disk, manifest, shards)
        invariant ok ==> forall j :: 0 <= j < i ==> owned[j] !in dir.disk.view
        invariant old(dir.Calm()) ==> ok && dir.faults == []
      {
        ghost var before, t := dir.disk, dir.trace;
        var removed, absent := RemoveOne(owned[i], manifest, shards);
        if !removed && !absent { ok := false; }
        RemovalComposes(start, before, dir.disk, set n | n in owned, {owned[i]});
        assert (set n | n in owned) + {owned[i]} == (set n | n in owned);
        if !Unmarked(start, MARKER) && Grounded(start, manifest, shards) {
          EndangeredStep(t, dir.trace, from, before, dir.disk, owned[i], removed, manifest, shards);
        }
      }
    }

    /** The end of abort: give the lock back and sync the directory. */
    method Withdraw(ghost manifest: string, ghost shards: map<string, string>) returns (ok: bool)
      requires dir.Valid()
      modifies this`lockHeld, dir
      ensures dir.Valid() && old(dir.trace) <= dir.trace
      ensures RemovedSince(old(dir.disk), dir.disk, if old(lockHeld) then {LOCK} else {})
      ensures Unmarked(old(dir.disk), MARKER) ==> UnmarkedFrom(dir.trace, |old(dir.trace)|) && Unmarked(dir.disk, MARKER)
      ensures Grounded(old(dir.disk), manifest, shards) ==> AlwaysSafe(dir.trace, |old(dir.trace)|, manifest, shards) && shards.Keys <= dir.disk.view.Keys
      ensures !old(lockHeld) ==> !lockHeld
      ensures ok ==> !lockHeld
    {
      ghost var d0, names := dir.disk, if lockHeld then {LOCK} else {};
      ok := ReleaseLock();
      if old(lockHeld) && ok { RemoveIsRemoval(d0, LOCK); }
      ghost var d1 := dir.disk;
      assert RemovedSince(d0, d1, names);
      var synced := dir.Sync(CleanupDirSync);
      ok := ok && synced;
      SyncIsRemoval(d1);
      RemovalComposes(d0, d1, dir.disk, names, {});
      assert names + {} == names;
      if Unmarked(d0, MARKER) {
        RemovalKeepsUnmarked(d0, d1, names);
        RemovalKeepsUnmarked(d0, dir.disk, names);
      }
      if Grounded(d0, manifest, shards) {
        GroundedKept(d0, d1, names, manifest, shards);
        GroundedKept(d0, dir.disk, names, manifest, shards);
        GroundedIsVisible(dir.disk, manifest, shards);
      }
    }

    /** The names abort may take away. */
    ghost function Removable(): set<string> reads this {
      (if markerRenamed then {MARKER} else {}) + (set n | n in Owned()) + (if lockHeld then {LOCK} else {})
    }

    /** abort after its invalidation: remove every path this commit created, then the lock. */
    method CleanUp(ghost manifest: string, ghost shards: map<string, string>) returns (ok: bool)
      requires dir.Valid()
      modifies this`lockHeld, dir
      ensures dir.Valid() && old(dir.trace) <= dir.trace && (ok || !old(lockHeld) ==> !lockHeld)
      ensures RemovedSince(old(dir.disk), dir.disk, (set n | n in Owned()) + (if old(lockHeld) then {LOCK} else {}))
      ensures Unmarked(old(dir.disk), MARKER) ==> UnmarkedFrom(dir.trace, |old(dir.trace)|) && Unmarked(dir.disk, MARKER)
      ensures Grounded(old(dir.disk), manifest, shards) ==>
                (AlwaysSafe(dir.trace, |old(dir.trace)|, manifest, shards) <==> Unmarked(old(dir.disk), MARKER) || shards.Keys <= dir.disk.view.Keys)
      ensures ok || old(dir.Calm()) ==> forall n :: n in Owned() ==> n !in dir.disk.view
    {
      ghost var d1, t1 := dir.disk, dir.trace;
      var removed := RemoveAll(Owned(), manifest, shards);
      ghost var d2, t2 := dir.disk, dir.trace;
      var withdrawn := Withdraw(manifest, shards);
      RemovalComposes(d1, d2, dir.disk, set n | n in Owned(), if old(lockHeld) then {LOCK} else {});
      ok := removed && withdrawn;
      if Grounded(d1, manifest, shards) { CleanUpIsSafeIff(|t1|, t2, dir.trace, d1, d2, dir.disk, manifest, shards); }
    }

    /**
     abort: invalidate the marker, then remove every path this commit created, then the
     lock. It only ever removes, and only its own names. `at` is the state in which its
     invalidation returned. From a state whose shards are settled, every state on the way is
     safe if and only if no crash can show a marker at `at`, or no shard was removed.
     */
    method Abort(ghost manifest: string, ghost shards: map<string, string>) returns (ok: bool, ghost at: nat)
      requires dir.Valid()
      modifies this`markerRenamed, this`lockHeld, dir
      ensures dir.Valid() && old(dir.trace) <= dir.trace && |old(dir.trace)| <= at + 1 <= |dir.trace|
      ensures !old(markerRenamed) ==> !markerRenamed && at + 1 == |old(dir.trace)|
      ensures !old(lockHeld) ==> !lockHeld
      ensures old(committed) ==> ok && dir.trace == old(dir.trace) && dir.disk == old(dir.disk)
      ensures RemovedSince(old(dir.disk), dir.disk, old(Removable()))
      ensures Unmarked(old(dir.disk), MARKER) ==> UnmarkedFrom(dir.trace, |old(dir.trace)|) && Unmarked(dir.trace[at], MARKER)
      ensures Grounded(old(dir.disk), manifest, shards) ==>
                (AlwaysSafe(dir.trace, |old(dir.trace)|, manifest, shards) <==> Unmarked(dir.trace[at], MARKER) || shards.Keys <= dir.disk.view.Keys)
      ensures ok && !old(committed) ==> !lockHeld && !markerRenamed && (forall n :: n in Owned() ==> n !in dir.disk.view)
      ensures ok && old(markerRenamed) && !old(committed) ==> Unmarked(dir.disk, MARKER)
      ensures !old(committed) && !old(markerRenamed) && old(dir.Calm()) ==> forall n :: n in Owned() ==> n !in dir.disk.view
    {
      at := |dir.trace| - 1;
      if committed {
        if Grounded(dir.disk, manifest, shards) { GroundedIsVisible(dir.disk, manifest, shards); }
        return true, at;
      }
      ghost var d0, names := dir.disk, if markerRenamed then {MARKER} else {};
      var invalidated := InvalidateMarker();
      ghost var d1, t1 := dir.disk, dir.trace;
      at := |t1| - 1;
      if Grounded(d0, manifest, shards) { InvalidatedIsGrounded(d0, d1, t1, |old(dir.trace)|, names, manifest, shards); }
      ghost var rest := (set n | n in Owned()) + (if lockHeld then {LOCK} else {});
      var cleaned := CleanUp(manifest, shards);
      RemovalComposes(d0, d1, dir.disk, names, rest);
      assert names + rest == old(Removable());
      ok := invalidated && cleaned;
      assert dir.trace[at] == d1;
      if Grounded(d0, manifest, shards) { SafeFromEither(t1, dir.trace, |old(dir.trace)|, manifest, shards); }
    }

    /** The first half of prepare: create the lock and make it durable. */
    method TakeLock() returns (ok: bool)
      requires dir.Valid() && !lockHeld
      modifies this`lockHeld, dir
      ensures dir.Valid() && old(dir.trace) <= dir.trace
      ensures ok ==> lockHeld
      ensures if lockHeld then LOCK !in old(dir.disk.view) && LOCK in dir.disk.view && dir.disk.view - {LOCK} == old(dir.disk.view)
              else dir.disk.view == old(dir.disk.view)
      ensures ok ==> dir.disk.pending == [] && dir.disk.durable == dir.disk.view
      ensures old(dir.Calm()) && LOCK !in old(dir.disk.view) ==> ok && dir.faults == []
      ensures ok <==> LOCK !in old(dir.disk.view) && old(dir.Clear(TAKING))
      ensures ok ==> dir.faults == Rest(old(dir.faults), 5)
    {
      ghost var f, bad := dir.faults, dir.doomed;
      TakingIsClear(f, bad);
      ok := dir.Sync(OutputDirSync);             // ensureDirectoryDurable
      if !ok { return; }
      var id;
      ok, id := dir.CreateExclusive(OwnershipCreate, LOCK);
      if !ok { return; }
      lockHeld := true;
      ghost var v := dir.disk.view;
      assert v - {LOCK} == old(dir.disk.view);
      assert dir.faults == Rest(f, 2);
      ok := dir.SyncFile(OwnershipSync, id);
      if ok { ok := dir.Pass(OwnershipClose); }
      if ok {
        assert dir.faults == Rest(f, 4);
        ok := dir.Sync(OwnershipDirSync);
      }
      assert dir.disk.view == v;
    }

    /** The scan of the directory; the lock is not looked at. */
    method FindsResidue() returns (found: bool)
      ensures found <==> Residue(dir.disk.view) != {}
    {
      LockIsNoArtifact();
      found := exists n :: n in dir.disk.view && n != LOCK && ArtifactName(n);
      if found {
        ghost var n :| n in dir.disk.view && n != LOCK && ArtifactName(n);
        assert n in Residue(dir.disk.view);
      }
    }

    /** Gives up a lock taken for nothing. */
    method Refuse()
      requires dir.Valid() && !committed && lockHeld && !markerRenamed && Owned() == []
      modifies this`markerRenamed, this`lockHeld, dir
      ensures dir.Valid() && old(dir.trace) <= dir.trace && !markerRenamed
      ensures forall n :: n in old(dir.disk.view) && n != LOCK ==> n in dir.disk.view && dir.disk.view[n] == old(dir.disk.view)[n]
    {
      var _, _ := Abort("", map[]);
      assert RemovedSince(old(dir.disk), dir.disk, {LOCK});
    }

    /**
     prepare: take the lock, make it durable, and refuse a directory that already holds
     an artifact. On success nothing is pending, so no older marker can come back.
     */
    method Prepare() returns (ok: bool)
      requires dir.Valid() && !prepared && !committed && !lockHeld && !markerRenamed && Owned() == []
      modifies this`prepared, this`lockHeld, this`markerRenamed, dir
      ensures dir.Valid() && old(dir.trace) <= dir.trace && ok == prepared && !markerRenamed
      ensures ok ==> lockHeld && LOCK in dir.disk.view && dir.disk.pending == [] && dir.disk.durable == dir.disk.view
      ensures ok ==> LOCK !in old(dir.disk.view) && Residue(dir.disk.view) == {}
      ensures ok ==> Unmarked(dir.disk, MARKER) && dir.disk.view - {LOCK} == old(dir.disk.view)
      ensures forall n :: n in old(dir.disk.view) ==> n in dir.disk.view && dir.disk.view[n] == old(dir.disk.view)[n]
      ensures ok && old(dir.faults) == [] ==> dir.faults == []
      ensures ok <==> LOCK !in old(dir.disk.view) && Residue(old(dir.disk.view)) == {} && old(dir.Clear(TAKING + [OutputDirRead]))
    {
      PreparingIsClear(dir.faults, dir.doomed);
      ok := TakeLock();
      if !lockHeld { return; }
      if ok { ok := dir.Pass(OutputDirRead); }
      LockIsNoResidue(old(dir.disk.view), dir.disk.view);
      var found := FindsResidue();
      if !ok || found {
        Refuse();
        return false;
      }
      CleanScan(dir.disk);
      prepared := true;
    }

    /** openShard, once prepared. */
    method OpenShard(final: string) returns (ok: bool, id: FileId)
      requires dir.Valid() && prepared
      modifies this`stagePaths, dir
      ensures dir.Valid() && old(dir.trace) <= dir.trace
      ensures ok ==> dir.disk == Create(old(dir.disk), final + ".partial", id) && dir.trace == old(dir.trace) + [dir.disk]
      ensures ok ==> final + ".partial" !in old(dir.disk.view) && id !in old(dir.disk.files)
      ensures ok == (final + ".partial" !in old(dir.disk.view) && !old(dir.Faulty(ShardOpen))) && dir.faults == old(dir.Later())
      ensures stagePaths == if ok then old(stagePaths) + [final + ".partial"] else old(stagePaths)
      ensures !ok ==> dir.disk == old(dir.disk) && dir.trace == old(dir.trace)
    {
      ok, id := dir.CreateExclusive(ShardOpen, final + ".partial");
      if ok { stagePaths := stagePaths + [final + ".partial"]; }
    }

    /** finalizeShard: the shard's bytes are on disk before it can be renamed. */
    method FinalizeShard(id: FileId) returns (ok: bool)
      requires dir.Valid()
      modifies dir
      ensures dir.Valid() && old(dir.trace) <= dir.trace
      ensures ok ==> dir.disk == SyncData(old(dir.disk), id) && dir.trace == old(dir.trace) + [dir.disk]
      ensures !ok ==> dir.trace == old(dir.trace) || dir.trace == old(dir.trace) + [SyncData(old(dir.disk), id)]
      ensures old(dir.Calm()) ==> ok && dir.faults == []
    {
      ok := dir.SyncFile(ShardSync, id);
      if ok { ok := dir.Pass(ShardClose); }
    }

    /** The rename loop of commitShards. */
    method RenameShards(stages: seq<string>, finals: seq<string>) returns (ok: bool)
      requires dir.Valid() && |stages| == |finals| && NoClash(stages, finals) && MARKER !in stages && MARKER !in finals
      requires Quiet(dir.disk, map[])
      modifies this`finalPaths, dir
      ensures dir.Valid() && old(dir.trace) <= dir.trace && QuietFrom(dir.trace, |old(dir.trace)|, map[]) && Quiet(dir.disk, map[])
      ensures dir.disk.files == old(dir.disk.files)
      ensures exists k :: 0 <= k <= |finals| && (ok ==> k == |finals|) && finalPaths == old(finalPaths) + finals[..k]
      ensures ok ==> forall i :: 0 <= i < |finals| ==>
                stages[i] in old(dir.disk.view) && finals[i] in dir.disk.view && dir.disk.view[finals[i]] == old(dir.disk.view)[stages[i]]
      ensures forall n :: n !in stages && n !in finals ==> Entry(dir.disk.view, n) == Entry(old(dir.disk.view), n)
      ensures ok ==> forall n :: n in stages ==> n !in dir.disk.view
      ensures old(dir.Calm()) && (forall n :: n in stages ==> n in old(dir.disk.view)) ==> ok && dir.faults == []
    {
      ghost var v0 := dir.disk.view;
      for i := 0 to |stages|
        invariant dir.Valid() && old(dir.trace) <= dir.trace && QuietFrom(dir.trace, |old(dir.trace)|, map[]) && Quiet(dir.disk, map[])
        invariant dir.disk.files == old(dir.disk.files) && finalPaths == old(finalPaths) + finals[..i]
        invariant RenamedTo(v0, dir.disk.view, stages, finals, i)
        invariant old(dir.Calm()) ==> dir.faults == []
      {
        ghost var before := dir.disk;
        ok := dir.Move(ShardRename, stages[i], finals[i]);
        if !ok { return; }
        RenameIsQuiet(before, stages[i], finals[i], map[]);
        RenameOne(v0, before, stages, finals, i);
        finalPaths := finalPaths + [finals[i]];
        assert finals[..i + 1] == finals[..i] + [finals[i]];
      }
      ok := true;
    }

    /** commitShards: rename every shard, then make all the renames durable at once. */
    method CommitShards(stages: seq<string>, finals: seq<string>, ghost shards: map<string, string>) returns (ok: bool)
      requires dir.Valid() && |stages| == |finals| && NoClash(stages, finals) && MARKER !in stages && MARKER !in finals
      requires Quiet(dir.disk, map[])
      requires shards.Keys == (set n | n in finals)
      requires forall i :: 0 <= i < |finals| ==> Intact(dir.disk, dir.disk.view, stages[i], shards[finals[i]])
      modifies this`finalPaths, dir
      ensures dir.Valid() && old(dir.trace) <= dir.trace && QuietFrom(dir.trace, |old(dir.trace)|, map[])
      ensures Unmarked(dir.disk, MARKER)
      ensures ok ==> Quiet(dir.disk, shards) && finalPaths == old(finalPaths) + finals
      ensures ok ==> forall n :: n !in stages && n !in finals ==> Entry(dir.disk.view, n) == Entry(old(dir.disk.view), n)
      ensures ok ==> dir.disk.pending == [] && dir.disk.durable == dir.disk.view && dir.disk.files == old(dir.disk.files)
      ensures old(dir.Calm()) ==> ok && dir.faults == []
    {
      ok := RenameShards(stages, finals);
      if !ok { return; }
      assert finals[..|finals|] == finals;
      ghost var d := dir.disk;
      SyncIsRemoval(d);
      ok := dir.Sync(ShardsDirSync);
      if ok { RemovalKeepsUnmarked(d, dir.disk, {}); }
    }

    /** The first half of writeAtomicFile: a fresh, complete, synced and closed temporary file. */
    method WriteTemp(name: string, data: string, ghost shards: map<string, string>) returns (ok: bool, temp: string)
      requires dir.Valid() && Quiet(dir.disk, shards) && (forall n :: n in shards ==> n in dir.disk.view)
      modifies this`tempPaths, dir
      ensures dir.Valid() && old(dir.trace) <= dir.trace && QuietFrom(dir.trace, |old(dir.trace)|, shards) && Quiet(dir.disk, shards)
      ensures ok ==> temp !in old(dir.disk.view) && temp != MARKER && temp != LOCK && dir.disk.view - {temp} == old(dir.disk.view)
      ensures ok ==> Intact(dir.disk, dir.disk.view, temp, data) && tempPaths == old(tempPaths) + [temp]
      ensures forall n :: n in old(dir.disk.view) ==> n in dir.disk.view && dir.disk.view[n] == old(dir.disk.view)[n]
      ensures KeepsBodies(old(dir.disk.files), dir.disk.files)
      ensures Entry(dir.disk.view, LOCK) == Entry(old(dir.disk.view), LOCK)
      ensures old(dir.Calm()) ==> ok && dir.faults == []
    {
      FreshTemp(name, dir.disk.view.Keys);
      var random: string :| TempName(name, random) !in dir.disk.view.Keys;
      temp := TempName(name, random);
      TempIsNeither(name, random);
      ghost var d0 := dir.disk;
      var id;
      ok, id := dir.CreateExclusive(TempCreate, temp);
      if !ok { return; }
      CreateIsQuiet(d0, temp, id, shards);
      tempPaths := tempPaths + [temp];
      ghost var d1 := dir.disk;
      ok := dir.Write(TempWrite, id, data);
      ghost var k :| 0 <= k <= |data| && (ok ==> k == |data|) && dir.disk == Append(d1, id, data[..k]);
      BodyIsQuiet(d1, id, data[..k], shards);
      if !ok { return; }
      assert data[..k] == data && "" + data == data;
      ghost var d2 := dir.disk;
      ok := dir.SyncFile(TempSync, id);
      BodyIsQuiet(d2, id, "", shards);
      if ok { ok := dir.Pass(TempClose); }
    }

    /** writeAtomicFile up to its rename: the temporary file is ready, and the lock is back if this is the manifest. */
    method ReadyTemp(kind: Kind, name: string, data: string, ghost shards: map<string, string>) returns (ok: bool, temp: string)
      requires dir.Valid() && prepared && Quiet(dir.disk, shards) && (forall n :: n in shards ==> n in dir.disk.view)
      requires LOCK !in shards && name != LOCK
      modifies this`tempPaths, this`lockHeld, dir
      ensures dir.Valid() && old(dir.trace) <= dir.trace && QuietFrom(dir.trace, |old(dir.trace)|, shards) && Quiet(dir.disk, shards)
      ensures ok ==> |old(dir.trace)| < |dir.trace| && temp !in shards && temp != MARKER && Intact(dir.disk, dir.disk.view, temp, data)
      ensures ok ==> name !in old(dir.disk.view) && temp !in old(dir.disk.view) && (kind == Manifest ==> !lockHeld)
      ensures ok && kind == Manifest && old(lockHeld) ==> LOCK !in dir.disk.view
      ensures forall n :: n in old(dir.disk.view) && n != LOCK ==> n in dir.disk.view && dir.disk.view[n] == old(dir.disk.view)[n]
      ensures KeepsBodies(old(dir.disk.files), dir.disk.files) && (kind == Sidecar ==> lockHeld == old(lockHeld))
      ensures ok && kind == Sidecar ==> dir.disk.view - {temp} == old(dir.disk.view)
      ensures old(dir.Calm()) && name !in old(dir.disk.view) && (old(lockHeld) ==> LOCK in old(dir.disk.view)) ==> ok && dir.faults == []
    {
      temp := "";
      if name in dir.disk.view { return false, temp; }
      ok, temp := WriteTemp(name, data, shards);
      if !ok || kind == Sidecar { return; }
      ghost var d := dir.disk;
      ok := ReleaseLock();
      if dir.disk != d { RemoveIsQuiet(d, LOCK, shards); }
    }

    /**
     writeAtomicFile: write a fresh temporary file, sync it, give the lock back if this
     is the manifest, and only then rename. Up to that rename nothing a reader relies on
     has changed.
     */
    method WriteAtomicFile(kind: Kind, name: string, data: string, ghost shards: map<string, string>) returns (ok: bool)
      requires dir.Valid() && prepared && Quiet(dir.disk, shards) && (forall n :: n in shards ==> n in dir.disk.view)
      requires (kind == Manifest <==> name == MARKER) && LOCK !in shards && name != LOCK
      modifies this`tempPaths, this`lockHeld, dir
      ensures dir.Valid() && old(dir.trace) <= dir.trace
      ensures ok ==> |old(dir.trace)| < |dir.trace|
      ensures QuietFrom(if ok then dir.trace[..|dir.trace| - 1] else dir.trace, |old(dir.trace)|, shards)
      ensures !ok ==> Quiet(dir.disk, shards)
      ensures ok ==> Settled(dir.disk, shards) && (kind == Sidecar ==> Quiet(dir.disk, shards))
      ensures ok ==> name !in old(dir.disk.view) && Intact(dir.disk, dir.disk.view, name, data)
      ensures ok && kind == Manifest ==> MarkedWith(dir.disk, MARKER, data) && !lockHeld
      ensures ok && kind == Manifest && old(lockHeld) ==> LOCK !in dir.trace[|dir.trace| - 2].view && MARKER !in dir.trace[|dir.trace| - 2].view
      ensures ok ==> forall n :: n in old(dir.disk.view) && n != LOCK ==> n in dir.disk.view && dir.disk.view[n] == old(dir.disk.view)[n]
      ensures KeepsBodies(old(dir.disk.files), dir.disk.files)
      ensures kind == Sidecar ==> lockHeld == old(lockHeld) && (ok ==> dir.disk.view.Keys == old(dir.disk.view).Keys + {name})
      ensures old(dir.Calm()) && name !in old(dir.disk.view) && (old(lockHeld) ==> LOCK in old(dir.disk.view)) ==> ok && dir.faults == []
    {
      var temp;
      ok, temp := ReadyTemp(kind, name, data, shards);
      if !ok { return; }
      ghost var d, t := dir.disk, dir.trace;
      assert MARKER !in d.view by { assert MayShow(d, MARKER, Entry(d.view, MARKER)); }
      ok := dir.Move(TempRename, temp, name);
      if !ok { return; }
      RenameIsQuiet(d, temp, name, shards);
      assert dir.trace[..|dir.trace| - 1] == t;
    }

    /** writeSidecar. */
    method WriteSidecar(name: string, data: string, ghost shards: map<string, string>) returns (ok: bool)
      requires dir.Valid() && prepared && Quiet(dir.disk, shards) && (forall n :: n in shards ==> n in dir.disk.view)
      requires name != MARKER && LOCK !in shards && name != LOCK
      modifies this`tempPaths, this`lockHeld, this`sidecarPaths, dir
      ensures dir.Valid() && old(dir.trace) <= dir.trace && QuietFrom(dir.trace, |old(dir.trace)|, shards) && Quiet(dir.disk, shards)
      ensures ok ==> Intact(dir.disk, dir.disk.view, name, data) && name !in old(dir.disk.view)
      ensures ok ==> forall n :: n in old(dir.disk.view) && n != LOCK ==> n in dir.disk.view && dir.disk.view[n] == old(dir.disk.view)[n]
      ensures KeepsBodies(old(dir.disk.files), dir.disk.files) && lockHeld == old(lockHeld)
      ensures sidecarPaths == if ok then old(sidecarPaths) + [name] else old(sidecarPaths)
      ensures ok ==> dir.disk.view.Keys == old(dir.disk.view).Keys + {name}
      ensures old(dir.Calm()) && name !in old(dir.disk.view) && (old(lockHeld) ==> LOCK in old(dir.disk.view)) ==> ok && dir.faults == []
    {
      ok := WriteAtomicFile(Sidecar, name, data, shards);
      if ok { sidecarPaths := sidecarPaths + [name]; }
    }

    /**
     The second half of writeManifest, once the marker is renamed: make the rename durable,
     or take the marker back.
     */
    method ConfirmMarker(ghost data: string, ghost shards: map<string, string>) returns (ok: bool)
      requires dir.Valid() && MarkedWith(dir.disk, MARKER, data) && Settled(dir.disk, shards) && LOCK !in shards && MARKER !in shards
      requires Visible(dir.disk, shards) && Intact(dir.disk, dir.disk.view, MARKER, data)
      modifies this`markerRenamed, this`committed, dir
      ensures dir.Valid() && old(dir.trace) <= dir.trace && AlwaysSafe(dir.trace, |old(dir.trace)|, data, shards)
      ensures ok ==> committed && dir.disk == SyncDir(old(dir.disk))
      ensures !ok ==> committed == old(committed) && Grounded(dir.disk, data, shards)
      ensures !ok ==> (Unmarked(dir.disk, MARKER) ==> !markerRenamed)
      ensures old(dir.Only(SYNCS)) ==> !ok && !markerRenamed && !Unmarked(dir.disk, MARKER) && dir.faults == []
      ensures old(dir.Only({})) ==> ok
    {
      ghost var d, t := dir.disk, dir.trace;
      assert MayShow(d, MARKER, Entry(d.view, MARKER));
      SettledIsGrounded(d, data, shards);
      markerRenamed := true;
      ok := dir.Sync(ManifestDirSync);
      if ok {
        committed := true;
        VisibleIsSettled(d, SyncDir(d), data, shards);
      } else {
        var _ := InvalidateMarker();
        InvalidatingIsSafe(d, dir.trace, |t|, data, shards);
        GroundedKept(d, dir.disk, {MARKER}, data, shards);
      }
    }

    /**
     writeManifest. In every directory state up to its return, a crash shows either no
     marker or the complete manifest with every shard in full. When it succeeds, what is
     visible is what a crash shows: marker, shards and sidecars are durable.
     */
    method WriteManifest(data: string, ghost shards: map<string, string>, ghost sidecars: map<string, string>) returns (ok: bool)
      requires dir.Valid() && prepared && !markerRenamed && Quiet(dir.disk, shards)
      requires Visible(dir.disk, shards) && Visible(dir.disk, sidecars) && LOCK !in shards && LOCK !in sidecars
      modifies this`tempPaths, this`lockHeld, this`markerRenamed, this`committed, dir
      ensures dir.Valid() && old(dir.trace) <= dir.trace && AlwaysSafe(dir.trace, |old(dir.trace)|, data, shards)
      ensures ok ==> committed && !lockHeld && dir.disk.pending == [] && dir.disk.durable == dir.disk.view
      ensures ok ==> Visible(dir.disk, map[MARKER := data]) && Visible(dir.disk, shards) && Visible(dir.disk, sidecars)
      ensures !ok ==> committed == old(committed) && (Unmarked(dir.disk, MARKER) || Grounded(dir.disk, data, shards))
      ensures old(dir.Only(SYNCS)) && (old(lockHeld) ==> LOCK in old(dir.disk.view)) ==> !ok && Skipping()
      ensures old(dir.Only({})) && (old(lockHeld) ==> LOCK in old(dir.disk.view)) ==> ok
    {
      ghost var d0, t0 := dir.disk, dir.trace;
      assert MARKER !in d0.view by { assert MayShow(d0, MARKER, Entry(d0.view, MARKER)); }
      ok := WriteAtomicFile(Manifest, MARKER, data, shards);
      ghost var t1, d1 := dir.trace, dir.disk;
      QuietIsSafe(if ok then t1[..|t1| - 1] else t1, |t0|, shards, data, shards);
      if !ok {
        return;
      }
      SettledIsSafe(d1, MARKER, data, shards);
      assert AlwaysSafe(t1, |t0|, data, shards) by {
        forall i | |t0| <= i < |t1| ensures Safe(t1[i], MARKER, data, shards) {
          if i < |t1| - 1 { assert t1[..|t1| - 1][i] == t1[i]; }
        }
      }
      ok := ConfirmMarker(data, shards);
    }

    /** One shard of the aggregate writer: open it, write it, finalize it. */
    method StageShard(name: string, body: string) returns (ok: bool)
      requires dir.Valid() && prepared && Quiet(dir.disk, map[])
      modifies this`stagePaths, dir
      ensures dir.Valid() && old(dir.trace) <= dir.trace && QuietFrom(dir.trace, |old(dir.trace)|, map[]) && Quiet(dir.disk, map[])
      ensures ok ==> Intact(dir.disk, dir.disk.view, name + ".partial", body)
      ensures forall n :: n in old(dir.disk.view) ==> n in dir.disk.view && dir.disk.view[n] == old(dir.disk.view)[n]
      ensures KeepsBodies(old(dir.disk.files), dir.disk.files)
      ensures forall n :: n in dir.disk.view ==> n in old(dir.disk.view) || n == name + ".partial"
      ensures old(dir.Calm()) && name + ".partial" !in old(dir.disk.view) ==> ok && dir.faults == []
    {
      ghost var d0 := dir.disk;
      PartialIsNeither(name);
      var id;
      ok, id := OpenShard(name);
      if !ok { return; }
      CreateIsQuiet(d0, name + ".partial", id, map[]);
      ghost var d1 := dir.disk;
      ok := dir.Write(ShardWrite, id, body);
      ghost var k :| 0 <= k <= |body| && (ok ==> k == |body|) && dir.disk == Append(d1, id, body[..k]);
      BodyIsQuiet(d1, id, body[..k], map[]);
      if !ok { return; }
      assert body[..k] == body && "" + body == body;
      ghost var d2 := dir.disk;
      ok := FinalizeShard(id);
      BodyIsQuiet(d2, id, "", map[]);
    }

    method StageShards(names: seq<string>, bodies: seq<string>) returns (ok: bool)
      requires dir.Valid() && prepared && |names| == |bodies| && Quiet(dir.disk, map[])
      modifies this`stagePaths, dir
      ensures dir.Valid() && old(dir.trace) <= dir.trace && QuietFrom(dir.trace, |old(dir.trace)|, map[]) && Quiet(dir.disk, map[])
      ensures ok ==> forall i :: 0 <= i < |names| ==> Intact(dir.disk, dir.disk.view, Partials(names)[i], bodies[i])
      ensures forall n :: n in old(dir.disk.view) ==> n in dir.disk.view
      ensures forall n :: n in dir.disk.view ==> n in old(dir.disk.view) || n in Partials(names)
      ensures old(dir.Calm()) && NoClash(Partials(names), names) && Free(old(dir.disk.view), names, 0) ==> ok && dir.faults == []
    {
      ok := true;
      ghost var fine := dir.Calm() && NoClash(Partials(names), names) && Free(dir.disk.view, names, 0);
      for i := 0 to |names|
        invariant dir.Valid() && old(dir.trace) <= dir.trace && QuietFrom(dir.trace, |old(dir.trace)|, map[]) && Quiet(dir.disk, map[])
        invariant forall j :: 0 <= j < i ==> Intact(dir.disk, dir.disk.view, Partials(names)[j], bodies[j])
        invariant forall n :: n in old(dir.disk.view) ==> n in dir.disk.view
        invariant forall n :: n in dir.disk.view ==> n in old(dir.disk.view) || n in Partials(names)
        invariant fine ==> dir.faults == [] && Free(dir.disk.view, names, i)
      {
        assert Partials(names)[i] == names[i] + ".partial";
        ok := StageShard(names[i], bodies[i]);
        if !ok { return; }
      }
    }

    method WriteSidecars(names: seq<string>, bodies: seq<string>, ghost shards: map<string, string>) returns (ok: bool)
      requires dir.Valid() && prepared && Quiet(dir.disk, shards) && Visible(dir.disk, shards) && LOCK !in shards
      requires |names| == |bodies| && forall n :: n in names ==> n != LOCK && n != MARKER
      modifies this`tempPaths, this`lockHeld, this`sidecarPaths, dir
      ensures dir.Valid() && old(dir.trace) <= dir.trace && QuietFrom(dir.trace, |old(dir.trace)|, shards)
      ensures Quiet(dir.disk, shards) && Visible(dir.disk, shards)
      ensures ok ==> forall i :: 0 <= i < |names| ==> Intact(dir.disk, dir.disk.view, names[i], bodies[i])
      ensures names == [] ==> ok && dir.disk == old(dir.disk) && dir.faults == old(dir.faults) && lockHeld == old(lockHeld)
      ensures old(dir.Calm()) && Vacant(old(dir.disk.view), names, 0) && (old(lockHeld) ==> LOCK in old(dir.disk.view)) ==>
                ok && dir.faults == [] && (lockHeld ==> LOCK in dir.disk.view)
    {
      ok := true;
      ghost var fine := dir.Calm() && Vacant(dir.disk.view, names, 0) && (lockHeld ==> LOCK in dir.disk.view);
      for i := 0 to |names|
        invariant dir.Valid() && old(dir.trace) <= dir.trace && QuietFrom(dir.trace, |old(dir.trace)|, shards) && Quiet(dir.disk, shards)
        invariant Visible(dir.disk, shards)
        invariant forall j :: 0 <= j < i ==> Intact(dir.disk, dir.disk.view, names[j], bodies[j])
        invariant names == [] ==> dir.disk == old(dir.disk) && dir.faults == old(dir.faults) && lockHeld == old(lockHeld)
        invariant fine ==> dir.faults == [] && Vacant(dir.disk.view, names, i) && (lockHeld ==> LOCK in dir.disk.view)
      {
        ghost var d := dir.disk;
        assert names[i] in names && forall j :: 0 <= j < i ==> names[j] in names;
        ok := WriteSidecar(names[i], bodies[i], shards);
        SettledIsVisible(dir.disk, shards);
        if !ok { return; }
      }
    }

    /** Shards first: staged, then renamed and made durable together. */
    method CommitAllShards(names: seq<string>, bodies: seq<string>, ghost manifest: string, ghost shards: map<string, string>) returns (ok: bool)
      requires dir.Valid() && prepared && Quiet(dir.disk, map[])
      requires |names| == |bodies| && NoClash(Partials(names), names) && IsTable(names, bodies, shards) && MARKER !in names
      modifies this`stagePaths, this`finalPaths, dir
      ensures dir.Valid() && old(dir.trace) <= dir.trace && AlwaysSafe(dir.trace, |old(dir.trace)|, manifest, shards)
      ensures Unmarked(dir.disk, MARKER)
      ensures ok ==> Quiet(dir.disk, shards) && Visible(dir.disk, shards) && (forall n :: n in names ==> n in finalPaths)
      ensures old(dir.Calm()) && Free(old(dir.disk.view), names, 0) ==> ok && dir.faults == []
      ensures ok && LOCK in old(dir.disk.view) && LOCK !in names ==> LOCK in dir.disk.view
      ensures ok ==> forall n :: n in dir.disk.view ==> n in old(dir.disk.view) || n in names || n in Partials(names)
    {
      ok := StageShards(names, bodies);
      QuietIsSafe(dir.trace, |old(dir.trace)|, map[], manifest, shards);
      if !ok { return; }
      ghost var t := dir.trace;
      forall i | 0 <= i < |names| ensures Partials(names)[i] != MARKER { PartialIsNeither(names[i]); }
      PartialsAreNotLock(names);
      ok := CommitShards(Partials(names), names, shards);
      QuietIsSafe(dir.trace, |t|, map[], manifest, shards);
      if ok { SettledIsVisible(dir.disk, shards); }
    }

    /** A marker that may come back and that the commit has no record of; no later step fails. */
    ghost predicate Skipping() reads this, dir {
      !markerRenamed && !Unmarked(dir.disk, MARKER) && dir.Only(SYNCS)
    }

    /** Then sidecars and the manifest. */
    method PublishMarker(sideNames: seq<string>, sideBodies: seq<string>, manifest: string,
                         ghost shards: map<string, string>, ghost sidecars: map<string, string>) returns (ok: bool)
      requires dir.Valid() && prepared && !markerRenamed && Quiet(dir.disk, shards) && Visible(dir.disk, shards) && LOCK !in shards
      requires IsTable(sideNames, sideBodies, sidecars) && forall n :: n in sideNames ==> n != LOCK && n != MARKER
      modifies this`tempPaths, this`lockHeld, this`sidecarPaths, this`markerRenamed, this`committed, dir
      ensures dir.Valid() && old(dir.trace) <= dir.trace && AlwaysSafe(dir.trace, |old(dir.trace)|, manifest, shards)
      ensures ok ==> committed && !lockHeld && dir.disk.pending == [] && dir.disk.durable == dir.disk.view
      ensures ok ==> Visible(dir.disk, map[MARKER := manifest]) && Visible(dir.disk, shards) && Visible(dir.disk, sidecars)
      ensures !ok ==> committed == old(committed) && (Unmarked(dir.disk, MARKER) || Grounded(dir.disk, manifest, shards))
      ensures old(dir.Only(SYNCS)) && (old(lockHeld) ==> LOCK in old(dir.disk.view)) && sideNames == [] ==> !ok && Skipping()
      ensures old(dir.Only({})) && (old(lockHeld) ==> LOCK in old(dir.disk.view)) && Vacant(old(dir.disk.view), sideNames, 0) ==> ok
    {
      ok := WriteSidecars(sideNames, sideBodies, shards);
      QuietIsSafe(dir.trace, |old(dir.trace)|, shards, manifest, shards);
      if !ok { return; }
      assert Visible(dir.disk, sidecars);
      ok := WriteManifest(manifest, shards, sidecars);
    }

    /**
     A whole commit: prepare, shards, sidecars, manifest, and abort on any failure.
     `start` is the state prepare left, `cut` the state in which writeManifest returned or
     an earlier step failed, `at` the state in which abort's invalidation returned. Every
     crash point from `start` to `cut` is safe; so is all of the abort if and only if no
     crash can show a marker at `at`, or no shard is missing at the end.
     */
    method Publish(names: seq<string>, bodies: seq<string>, sideNames: seq<string>, sideBodies: seq<string>, manifest: string,
                   ghost shards: map<string, string>, ghost sidecars: map<string, string>)
      returns (ok: bool, ghost start: nat, ghost cut: nat, ghost at: nat)
      requires dir.Valid() && !prepared && !committed && !lockHeld && !markerRenamed && Owned() == []
      requires |names| == |bodies| && NoClash(Partials(names), names) && IsTable(names, bodies, shards)
      requires IsTable(sideNames, sideBodies, sidecars)
      requires forall n :: n in names || n in sideNames ==> n != LOCK && n != MARKER
      modifies this, dir
      ensures dir.Valid() && old(dir.trace) <= dir.trace && start <= cut <= at + 1 <= |dir.trace| && 0 < cut
      ensures AlwaysSafe(dir.trace[..cut], start, manifest, shards)
      ensures !ok && prepared ==>
                (AlwaysSafe(dir.trace, start, manifest, shards) <==> Unmarked(dir.trace[at], MARKER) || shards.Keys <= dir.disk.view.Keys)
      ensures Unmarked(dir.trace[cut - 1], MARKER) ==> Unmarked(dir.trace[at], MARKER)
      ensures ok ==> cut == |dir.trace| && committed && !lockHeld && dir.disk.durable == dir.disk.view && dir.disk.pending == []
      ensures ok ==> Visible(dir.disk, map[MARKER := manifest]) && Visible(dir.disk, shards) && Visible(dir.disk, sidecars)
      ensures old(dir.Only(SYNCS)) && old(dir.disk.view) == map[] && names != [] && sideNames == [] ==>
                !ok && !AlwaysSafe(dir.trace, start, manifest, shards)
      ensures old(dir.Only({})) && Roomy(old(dir.disk.view), names, sideNames) ==> ok
    {
      ok := Begin(names, sideNames);
      start, cut, at := |dir.trace|, |dir.trace|, |dir.trace| - 1;
      if !ok { return; }
      ghost var t := dir.trace;
      PartialsAreNotLock(names);
      ok, cut, at := PublishOrAbort(names, bodies, sideNames, sideBodies, manifest, shards, sidecars);
      assert old(dir.trace) <= t <= dir.trace;
    }

    /** prepare, as far as the rest of a commit needs it. */
    method Begin(ghost names: seq<string>, ghost sideNames: seq<string>) returns (ok: bool)
      requires dir.Valid() && !prepared && !committed && !lockHeld && !markerRenamed && Owned() == []
      modifies this`prepared, this`lockHeld, this`markerRenamed, dir
      ensures dir.Valid() && old(dir.trace) <= dir.trace && ok == prepared && !markerRenamed && (ok ==> Quiet(dir.disk, map[]))
      ensures old(dir.Only(SYNCS)) && old(dir.disk.view) == map[] ==> ok && dir.Only(SYNCS) && dir.disk.view.Keys == {LOCK}
      ensures old(dir.Only({})) && Roomy(old(dir.disk.view), names, sideNames) ==>
                ok && dir.Only({}) && LOCK in dir.disk.view && Free(dir.disk.view, names, 0) && Room(dir.disk.view, names, sideNames)
    {
      ok := Prepare();
      if ok {
        PartialsAreFree(dir.disk.view, names);
        RoomBesideLock(old(dir.disk.view), dir.disk.view, names, sideNames);
      }
    }

    /** The same once prepared. */
    method PublishOrAbort(names: seq<string>, bodies: seq<string>, sideNames: seq<string>, sideBodies: seq<string>, manifest: string,
                          ghost shards: map<string, string>, ghost sidecars: map<string, string>) returns (ok: bool, ghost cut: nat, ghost at: nat)
      requires dir.Valid() && prepared && !committed && !markerRenamed && Quiet(dir.disk, map[])
      requires |names| == |bodies| && NoClash(Partials(names), names) && IsTable(names, bodies, shards)
      requires IsTable(sideNames, sideBodies, sidecars)
      requires forall n :: n in names || n in sideNames ==> n != LOCK && n != MARKER
      modifies this, dir
      ensures dir.Valid() && old(dir.trace) <= dir.trace && |old(dir.trace)| <= cut <= at + 1 <= |dir.trace|
      ensures AlwaysSafe(dir.trace[..cut], |old(dir.trace)|, manifest, shards)
      ensures !ok ==> (AlwaysSafe(dir.trace, |old(dir.trace)|, manifest, shards) <==> Unmarked(dir.trace[at], MARKER) || shards.Keys <= dir.disk.view.Keys)
      ensures Unmarked(dir.trace[cut - 1], MARKER) ==> Unmarked(dir.trace[at], MARKER)
      ensures ok ==> cut == |dir.trace| && committed && !lockHeld && dir.disk.durable == dir.disk.view && dir.disk.pending == []
      ensures ok ==> Visible(dir.disk, map[MARKER := manifest]) && Visible(dir.disk, shards) && Visible(dir.disk, sidecars)
      ensures old(dir.Only(SYNCS)) && LOCK in old(dir.disk.view) && Free(old(dir.disk.view), names, 0) && names != [] && sideNames == [] ==>
                !ok && !AlwaysSafe(dir.trace, |old(dir.trace)|, manifest, shards)
      ensures old(dir.Only({})) && LOCK in old(dir.disk.view) && Free(old(dir.disk.view), names, 0) && Room(old(dir.disk.view), names, sideNames) ==> ok
    {
      assert names != [] ==> names[0] in shards;
      ok := PublishPrepared(names, bodies, sideNames, sideBodies, manifest, shards, sidecars);
      cut, at := |dir.trace|, |dir.trace| - 1;
      assert dir.trace[..cut] == dir.trace;
      if !ok { at := AbortFrom(|old(dir.trace)|, cut, manifest, shards); }
    }

    /** The part before the abort. */
    method PublishPrepared(names: seq<string>, bodies: seq<string>, sideNames: seq<string>, sideBodies: seq<string>, manifest: string,
                           ghost shards: map<string, string>, ghost sidecars: map<string, string>) returns (ok: bool)
      requires dir.Valid() && prepared && !committed && !markerRenamed && Quiet(dir.disk, map[])
      requires |names| == |bodies| && NoClash(Partials(names), names) && IsTable(names, bodies, shards)
      requires IsTable(sideNames, sideBodies, sidecars)
      requires forall n :: n in names || n in sideNames ==> n != LOCK && n != MARKER
      modifies this, dir
      ensures dir.Valid() && old(dir.trace) <= dir.trace && AlwaysSafe(dir.trace, |old(dir.trace)|, manifest, shards)
      ensures ok ==> committed && !lockHeld && dir.disk.durable == dir.disk.view && dir.disk.pending == []
      ensures ok ==> Visible(dir.disk, map[MARKER := manifest]) && Visible(dir.disk, shards) && Visible(dir.disk, sidecars)
      ensures !ok ==> !committed && (Unmarked(dir.disk, MARKER) || Grounded(dir.disk, manifest, shards))
      ensures old(dir.Only(SYNCS)) && LOCK in old(dir.disk.view) && Free(old(dir.disk.view), names, 0) && sideNames == [] ==>
                !ok && Skipping() && forall n :: n in names ==> n in finalPaths
      ensures old(dir.Only({})) && LOCK in old(dir.disk.view) && Free(old(dir.disk.view), names, 0) && Room(old(dir.disk.view), names, sideNames) ==> ok
    {
      assert LOCK !in shards && MARKER !in names;
      ok := CommitAllShards(names, bodies, manifest, shards);
      if !ok { return; }
      RoomIsVacant(old(dir.disk.view), dir.disk.view, names, sideNames);
      ok := PublishMarker(sideNames, sideBodies, manifest, shards, sidecars);
    }

    method AbortFrom(ghost start: nat, ghost cut: nat, ghost manifest: string, ghost shards: map<string, string>) returns (ghost at: nat)
      requires dir.Valid() && !committed && start <= cut == |dir.trace| && AlwaysSafe(dir.trace, start, manifest, shards)
      requires Unmarked(dir.disk, MARKER) || Grounded(dir.disk, manifest, shards)
      modifies this`markerRenamed, this`lockHeld, dir
      ensures dir.Valid() && old(dir.trace) <= dir.trace && cut <= at + 1 <= |dir.trace|
      ensures AlwaysSafe(dir.trace[..cut], start, manifest, shards)
      ensures Unmarked(dir.trace[cut - 1], MARKER) ==> Unmarked(dir.trace[at], MARKER)
      ensures AlwaysSafe(dir.trace, start, manifest, shards) <==> Unmarked(dir.trace[at], MARKER) || shards.Keys <= dir.disk.view.Keys
      ensures old(Skipping()) ==> forall n :: n in shards && n in finalPaths ==> !AlwaysSafe(dir.trace, start, manifest, shards)
    {
      ghost var d0, t0 := dir.disk, dir.trace;
      var aborted;
      aborted, at := Abort(manifest, shards);
      assert dir.trace[..cut] == t0;
      if Unmarked(d0, MARKER) {
        forall i | cut <= i < |dir.trace| ensures Safe(dir.trace[i], MARKER, manifest, shards) {
          UnmarkedIsSafe(dir.trace[i], MARKER, manifest, shards);
        }
      }
      SafeFromEither(t0, dir.trace, start, manifest, shards);
      if old(Skipping()) {
        assert dir.trace[at] == t0[at] == d0;
        forall n | n in shards && n in finalPaths ensures n !in dir.disk.view { assert n in Owned(); }
      }
    }
  }

  /**
   A whole commit into an empty directory in which exactly two steps fail: the directory sync
   after the marker's rename, and the one after the marker is removed again. writeManifest has
   then cleared its record of the marker, so abort does not invalidate it again; it removes the
   shards, and a crash on the way can show the manifest without them.
   */
  method SkippedInvalidation(names: seq<string>, bodies: seq<string>, manifest: string, ghost shards: map<string, string>)
    returns (ok: bool, ghost trace: seq<Disk>, ghost start: nat)
    requires names != [] && |names| == |bodies| && NoClash(Partials(names), names) && IsTable(names, bodies, shards)
    requires forall n :: n in names ==> n != LOCK && n != MARKER
    ensures !ok && |trace| > 0 && trace[0] == EMPTY_DISK && !AlwaysSafe(trace, start, manifest, shards)
  {
    assert Coherent(EMPTY_DISK);
    var dir := new Directory(EMPTY_DISK, [], SYNCS);
    var commit := new LocalAggregateCommit(dir);
    ghost var cut, at;
    assert IsTable([], [], map[]);
    ok, start, cut, at := commit.Publish(names, bodies, [], [], manifest, shards, map[]);
    trace := dir.trace;
  }

  const EMPTY_DISK := Disk(map[], map[], [], map[])

  lemma PartialsAreNotLock(names: seq<string>)
    ensures LOCK !in Partials(names)
  {
    forall i | 0 <= i < |names| ensures Partials(names)[i] != LOCK { PartialIsNeither(names[i]); }
  }

  /** There is always a name for a temporary file that is not taken. */
  lemma FreshTemp(name: string, taken: set<string>)
    ensures exists random: string :: TempName(name, random) !in taken
  {
    var n := LongerThan(taken);
    var random: string := seq(n, _ => 'x');
    assert |TempName(name, random)| > n;
  }

  lemma {:induction false} LongerThan(names: set<string>) returns (n: nat)
    ensures forall m :: m in names ==> |m| <= n
  {
    if names == {} {
      n := 0;
    } else {
      var m :| m in names;
      n := LongerThan(names - {m});
      assert forall k :: k in names ==> k == m || k in names - {m};
      n := if |m| < n then n else |m|;
    }
  }

  lemma SafeFromEither(t0: seq<Disk>, t: seq<Disk>, start: nat, manifest: string, shards: map<string, string>)
    requires t0 <= t && start <= |t0| && AlwaysSafe(t0, start, manifest, shards)
    ensures AlwaysSafe(t, start, manifest, shards) <==> AlwaysSafe(t, |t0|, manifest, shards)
  {
    assert forall i :: 0 <= i < |t0| ==> t[i] == t0[i];
  }

  /** The staging names openShard gives the shards. */
  function Partials(names: seq<string>): (r: seq<string>)
    ensures |r| == |names| && forall i :: 0 <= i < |names| ==> r[i] == names[i] + ".partial"
  {
    seq(|names|, i requires 0 <= i < |names| => names[i] + ".partial")
  }

  /** Nothing stands at these names from the i-th on, and none of them is given twice. */
  ghost predicate Vacant(view: map<string, FileId>, names: seq<string>, i: nat) {
    && (forall j :: i <= j < |names| ==> names[j] !in view)
    && (forall j, k :: 0 <= j < k < |names| ==> names[j] != names[k])
  }

  /** There is room for the sidecars beside what is there and beside the shards. */
  ghost predicate Room(view: map<string, FileId>, names: seq<string>, sideNames: seq<string>) {
    Vacant(view, sideNames, 0) && forall n :: n in sideNames ==> n != LOCK && n !in names && n !in Partials(names)
  }

  /** A directory that a commit of these shards and sidecars can use. */
  ghost predicate Roomy(view: map<string, FileId>, names: seq<string>, sideNames: seq<string>) {
    LOCK !in view && Residue(view) == {} && Room(view, names, sideNames)
  }

  lemma RoomBesideLock(before: map<string, FileId>, after: map<string, FileId>, names: seq<string>, sideNames: seq<string>)
    requires after.Keys == before.Keys + {LOCK}
    ensures Room(before, names, sideNames) ==> Room(after, names, sideNames)
  {
    if Room(before, names, sideNames) {
      forall j | 0 <= j < |sideNames| ensures sideNames[j] !in after { assert sideNames[j] in sideNames; }
    }
  }

  lemma RoomIsVacant(before: map<string, FileId>, after: map<string, FileId>, names: seq<string>, sideNames: seq<string>)
    requires forall n :: n in after ==> n in before || n in names || n in Partials(names)
    ensures Room(before, names, sideNames) ==> Vacant(after, sideNames, 0)
  {
    if Room(before, names, sideNames) {
      forall j | 0 <= j < |sideNames| ensures sideNames[j] !in after { assert sideNames[j] in sideNames; }
    }
  }

  lemma PartialsAreFree(view: map<string, FileId>, names: seq<string>)
    requires Residue(view) == {}
    ensures Free(view, names, 0)
  {
    forall j | 0 <= j < |names| ensures Partials(names)[j] !in view {
      CreatedIsArtifact(names[j], "");
      var n := Partials(names)[j];
      assert n in view <==> n in Residue(view);
    }
  }

  /** No shard from the i-th on has a staging file yet. */
  ghost predicate Free(view: map<string, FileId>, names: seq<string>, i: nat) {
    forall j :: i <= j < |names| ==> Partials(names)[j] !in view
  }

  ghost predicate IsTable(names: seq<string>, bodies: seq<string>, table: map<string, string>) {
    |names| == |bodies| && table.Keys == (set n | n in names) && forall i :: 0 <= i < |names| ==> table[names[i]] == bodies[i]
  }

  /** A settled name is visible: nothing is pending that could have hidden it. */
  lemma SettledIsVisible(d: Disk, shards: map<string, string>)
    requires Settled(d, shards) && Coherent(d)
    ensures Visible(d, shards)
  {
    forall n | n in shards ensures Intact(d, d.view, n, shards[n]) { assert MayShow(d, n, Entry(d.view, n)); }
  }

  lemma QuietIsSafe(trace: seq<Disk>, from: nat, kept: map<string, string>, manifest: string, shards: map<string, string>)
    requires QuietFrom(trace, from, kept)
    ensures AlwaysSafe(trace, from, manifest, shards)
  {
    forall i | from <= i < |trace| ensures Safe(trace[i], MARKER, manifest, shards) {
      UnmarkedIsSafe(trace[i], MARKER, manifest, shards);
    }
  }

  /** Once the directory is synced, everything visible is settled. */
  lemma VisibleIsSettled(d: Disk, d': Disk, manifest: string, shards: map<string, string>)
    requires d' == SyncDir(d) && Visible(d, shards) && Intact(d, d.view, MARKER, manifest)
    ensures Safe(d', MARKER, manifest, shards)
  {
    SettledIsSafe(d', MARKER, manifest, shards);
  }

  /** Taking the marker back keeps the promise at every point. */
  lemma InvalidatingIsSafe(d: Disk, trace: seq<Disk>, from: nat, manifest: string, shards: map<string, string>)
    requires MarkedWith(d, MARKER, manifest) && Settled(d, shards) && MARKER !in shards
    requires forall i :: from <= i < |trace| ==> RemovedSince(d, trace[i], {MARKER})
    ensures AlwaysSafe(trace, from, manifest, shards)
  {
    forall i | from <= i < |trace| ensures Safe(trace[i], MARKER, manifest, shards) {
      var d' := trace[i];
      forall img | CrashImage(d', img) && MARKER in img
        ensures Intact(d', img, MARKER, manifest) && forall n :: n in shards ==> Intact(d', img, n, shards[n]) {
        assert MayShow(d', MARKER, Entry(img, MARKER));
        assert MayShow(d, MARKER, Entry(img, MARKER));
        forall n | n in shards ensures Intact(d', img, n, shards[n]) {
          assert MayShow(d', n, Entry(img, n));
          assert MayShow(d, n, Entry(img, n));
        }
      }
    }
  }

  /**
   A failed invalidation is not harmless. If the marker's rename may survive, removing the
   marker without syncing the directory leaves it able to come back, and then removing any
   shard lets a crash show a manifest without its shard.
   */
  lemma AbortAfterUnsyncedInvalidationIsUnsafe(d: Disk, id: FileId, n: string, manifest: string, shards: map<string, string>)
    requires MayShow(d, MARKER, Some(id)) && n in shards && n != MARKER
    ensures !Safe(Remove(Remove(d, MARKER), n), MARKER, manifest, shards)
  {
    var d' := Remove(d, MARKER);
    ShowsKept(d, d', MARKER, Some(id));
    RemovingShardIsSafeIff(d', MARKER, manifest, shards, n);
  }
}
