/** The upload pass and the engine's cycle under every strategy: what becomes of a dirty file whose remote has
    moved, of the files that copies are saved over, and of the remote. */
module SyncUploads {
  import opened Basics
  import opened Paths
  import opened Sync
  import opened SyncPull
  import opened SyncCycle
  import opened SyncIdempotence
  import opened SyncSaved

  // ---------- One upload ----------

  /** The remote has changed since the last sync of a file that was synced before. */
  predicate HasMoved(remote: Remote, p: Path, e: Entry) {
    Moved(Lookup(remote.nodes, p), e)
  }

  /** The upload goes through to the transfer and succeeds. */
  predicate GoesThrough(remote: Remote, p: Path, e: Entry, cell: Cell) {
    !HasMoved(remote, p, e) && cell.row.Some? && cell.file.Some? && p !in remote.broken
  }

  /** The upload of `p`, with the entry that was listed, seen from `p` alone. */
  function OwnUpload(strategy: Strategy, remote: Remote, p: Path, e: Entry, cell: Cell): Cell {
    if HasMoved(remote, p, e) then ResolveCell(strategy, Get(remote, p), e, remote.nodes[p], cell)
    else if cell.row.None? then cell
    else if cell.file.None? then cell.(row := Some(cell.row.value.(state := Dirty)))
    else if p in remote.broken then cell.(row := Some(e.(state := Dirty, syncError := true)))
    else cell.(row := Some(UploadedEntry(e)))
  }

  lemma OneUpload(c: Cache, remote: Remote, strategy: Strategy, p: Path, e: Entry, q: Path)
    requires p != []
    ensures var (d, r) := UploadFile(c, remote, strategy, p, e);
      && r.broken == remote.broken
      && At(d, q) == (
         if q == p then OwnUpload(strategy, remote, p, e, At(c, p))
         else if strategy.Both? && HasMoved(remote, p, e) && q == SidecarOf(remote, p) then
           SavedCell(Get(remote, p), remote.nodes[p], At(c, q))
         else At(c, q))
      && Lookup(r.nodes, q) == (
         if q == p && GoesThrough(remote, p, e, At(c, p)) then Some(Node(false, e.localMtime, c.files[p]))
         else Lookup(remote.nodes, q))
  {
    if HasMoved(remote, p, e) {
      ResolveEffect(c, strategy, remote, p, e, q);
    }
  }

  // ---------- The pass ----------

  lemma LastUpload(c: Cache, remote: Remote, strategy: Strategy, dirty: seq<Path>) returns (rest: seq<Path>, p: Path)
    requires DirtyListing(c, dirty) && dirty != []
    ensures DirtyListing(c, rest) && dirty == rest + [p] && p !in rest && p in dirty && IsDirtyFile(c, p) && p != []
    ensures forall q :: q in dirty <==> q in rest || q == p
    ensures var before := UploadEach(c, remote, strategy, rest);
      UploadEach(c, remote, strategy, dirty) == UploadFile(before.0, before.1, strategy, p, c.rows[p])
  {
    rest, p := dirty[..|dirty| - 1], dirty[|dirty| - 1];
    assert forall x | x in rest :: x in dirty;
    assert p in dirty;
  }

  /** A file changes on the remote only by its own upload. */
  lemma {:induction false} PassRemote(c: Cache, remote: Remote, strategy: Strategy, dirty: seq<Path>, q: Path)
    requires DirtyListing(c, dirty)
    ensures var r := UploadEach(c, remote, strategy, dirty).1;
      r.broken == remote.broken && (q !in dirty ==> Lookup(r.nodes, q) == Lookup(remote.nodes, q))
    decreases |dirty|
  {
    if dirty != [] {
      var rest, p := LastUpload(c, remote, strategy, dirty);
      var before := UploadEach(c, remote, strategy, rest);
      PassRemote(c, remote, strategy, rest, q);
      OneUpload(before.0, before.1, strategy, p, c.rows[p], q);
    }
  }

  lemma SameNode(a: Remote, b: Remote, p: Path)
    requires Lookup(a.nodes, p) == Lookup(b.nodes, p) && a.broken == b.broken
    ensures (p in a.nodes <==> p in b.nodes) && (p in a.nodes ==> a.nodes[p] == b.nodes[p]) && Get(a, p) == Get(b, p)
  {
  }

  /** At its turn a listed file finds the remote as it was before the pass. */
  lemma TurnRemote(c: Cache, remote: Remote, strategy: Strategy, rest: seq<Path>, p: Path)
    requires DirtyListing(c, rest) && p !in rest
    ensures var r := UploadEach(c, remote, strategy, rest).1;
      && r.broken == remote.broken && Get(r, p) == Get(remote, p)
      && (p in r.nodes <==> p in remote.nodes) && (p in r.nodes ==> r.nodes[p] == remote.nodes[p])
  {
    PassRemote(c, remote, strategy, rest, p);
    SameNode(UploadEach(c, remote, strategy, rest).1, remote, p);
  }

  /** The j-th listed file is a conflict in the upload pass, and strategy both saves its remote copy to `q`. */
  ghost predicate PassSaves(c: Cache, remote: Remote, dirty: seq<Path>, j: nat, q: Path) {
    && j < |dirty| && dirty[j] in c.rows && dirty[j] != []
    && HasMoved(remote, dirty[j], c.rows[dirty[j]]) && SidecarOf(remote, dirty[j]) == q
  }

  lemma PassSavesOnce(c: Cache, remote: Remote, dirty: seq<Path>, j: nat, k: nat, q: Path)
    requires DirtyListing(c, dirty) && PassSaves(c, remote, dirty, j, q) && PassSaves(c, remote, dirty, k, q)
    ensures j == k && dirty[j] != q
  {
    SidecarInjective(dirty[j], remote.nodes[dirty[j]].mtime, dirty[k], remote.nodes[dirty[k]].mtime);
    SidecarSibling(Parent(dirty[j]), dirty[j], remote.nodes[dirty[j]].mtime);
  }

  /** The pass saves a copy to `q`, or removes the file there because the download of the copy fails. */
  ghost predicate PassOverwrites(c: Cache, remote: Remote, strategy: Strategy, dirty: seq<Path>, q: Path) {
    strategy.Both? && exists j: nat :: PassSaves(c, remote, dirty, j, q)
  }

  lemma RestOverwrites(c: Cache, remote: Remote, strategy: Strategy, rest: seq<Path>, p: Path, q: Path)
    requires !PassOverwrites(c, remote, strategy, rest + [p], q)
    ensures !PassOverwrites(c, remote, strategy, rest, q)
    ensures strategy.Both? ==> !PassSaves(c, remote, rest + [p], |rest|, q)
  {
    forall j: nat | PassSaves(c, remote, rest, j, q) ensures PassSaves(c, remote, rest + [p], j, q) {
    }
  }

  /** Where no copy is saved, the pass is the own upload of a listed file, and nothing else. */
  lemma {:induction false} PassOwn(c: Cache, remote: Remote, strategy: Strategy, dirty: seq<Path>, q: Path)
    requires DirtyListing(c, dirty) && !PassOverwrites(c, remote, strategy, dirty, q)
    ensures At(UploadEach(c, remote, strategy, dirty).0, q)
      == if q in dirty then OwnUpload(strategy, remote, q, c.rows[q], At(c, q)) else At(c, q)
    decreases |dirty|
  {
    if dirty != [] {
      var rest, p := LastUpload(c, remote, strategy, dirty);
      var before := UploadEach(c, remote, strategy, rest);
      RestOverwrites(c, remote, strategy, rest, p, q);
      PassOwn(c, remote, strategy, rest, q);
      TurnRemote(c, remote, strategy, rest, p);
      OneUpload(before.0, before.1, strategy, p, c.rows[p], q);
    }
  }

  // ---------- Files ----------

  /** The file at a path to which the pass saves a copy: the remote's bytes of that copy, or nothing if its
      download fails, whatever the order of the uploads. */
  lemma {:induction false} PassCopy(c: Cache, remote: Remote, dirty: seq<Path>, j: nat, q: Path)
    requires DirtyListing(c, dirty) && PassSaves(c, remote, dirty, j, q)
    ensures At(UploadEach(c, remote, Both, dirty).0, q).file == Get(remote, dirty[j])
    ensures q !in dirty && Get(remote, dirty[j]).Some? ==>
      At(UploadEach(c, remote, Both, dirty).0, q).row == Some(SidecarEntry(remote.nodes[dirty[j]]))
    decreases |dirty|
  {
    var rest, p := LastUpload(c, remote, Both, dirty);
    var before := UploadEach(c, remote, Both, rest);
    PassSavesOnce(c, remote, dirty, j, j, q);
    TurnRemote(c, remote, Both, rest, p);
    OneUpload(before.0, before.1, Both, p, c.rows[p], q);
    if j < |rest| {
      assert PassSaves(c, remote, rest, j, q);
      PassCopy(c, remote, rest, j, q);
      if PassSaves(c, remote, dirty, |rest|, q) {
        PassSavesOnce(c, remote, dirty, j, |rest|, q);
      }
    }
  }

  /** The file at any path after the pass. Only two things change files: a copy that strategy both saves, and the
      remote version that remote-wins takes. */
  lemma PassFile(c: Cache, remote: Remote, strategy: Strategy, dirty: seq<Path>, q: Path)
    requires DirtyListing(c, dirty)
    ensures var file := Lookup(UploadEach(c, remote, strategy, dirty).0.files, q);
      && (forall j: nat | strategy.Both? && PassSaves(c, remote, dirty, j, q) :: file == Get(remote, dirty[j]))
      && (!PassOverwrites(c, remote, strategy, dirty, q) ==>
            file == if strategy.RemoteWins? && q in dirty && HasMoved(remote, q, c.rows[q]) then Get(remote, q)
                    else Lookup(c.files, q))
  {
    var d := UploadEach(c, remote, strategy, dirty).0;
    assert At(d, q).file == Lookup(d.files, q);
    forall j: nat | strategy.Both? && PassSaves(c, remote, dirty, j, q)
      ensures Lookup(d.files, q) == Get(remote, dirty[j])
    {
      PassCopy(c, remote, dirty, j, q);
    }
    if !PassOverwrites(c, remote, strategy, dirty, q) {
      PassOwn(c, remote, strategy, dirty, q);
    }
  }

  // ---------- The remote ----------

  /** What the pass uploads of a listed file. */
  lemma {:induction false} PassUploads(c: Cache, remote: Remote, strategy: Strategy, dirty: seq<Path>, q: Path)
    requires DirtyListing(c, dirty) && !PassOverwrites(c, remote, strategy, dirty, q)
    ensures Lookup(UploadEach(c, remote, strategy, dirty).1.nodes, q) ==
      if q in dirty && GoesThrough(remote, q, c.rows[q], At(c, q)) then
        Some(Node(false, c.rows[q].localMtime, c.files[q]))
      else Lookup(remote.nodes, q)
    decreases |dirty|
  {
    if dirty != [] {
      var rest, p := LastUpload(c, remote, strategy, dirty);
      var before := UploadEach(c, remote, strategy, rest);
      RestOverwrites(c, remote, strategy, rest, p, q);
      PassUploads(c, remote, strategy, rest, q);
      PassOwn(c, remote, strategy, rest, q);
      TurnRemote(c, remote, strategy, rest, p);
      OneUpload(before.0, before.1, strategy, p, c.rows[p], q);
      assert q == p ==> At(before.0, q) == At(c, q) && q in c.rows;
      assert q == p && q in c.files ==> At(before.0, q).file == Some(c.files[q]);
    }
  }

  /** No upload, under any strategy, overwrites a remote version newer than the one that the row knows: a remote
      file changes only by the upload of a listed row that was never synced, or whose remote time the remote has
      not passed, and it gets the local time of that row. */
  lemma {:induction false} NewerNodeKept(c: Cache, remote: Remote, strategy: Strategy, dirty: seq<Path>, q: Path)
    requires DirtyListing(c, dirty)
    ensures var r := UploadEach(c, remote, strategy, dirty).1;
      Lookup(r.nodes, q) != Lookup(remote.nodes, q) ==>
        && q in dirty && (c.rows[q].remoteMtime <= 0 || q !in remote.nodes
                          || remote.nodes[q].mtime <= c.rows[q].remoteMtime)
        && q in r.nodes && !r.nodes[q].isDir && r.nodes[q].mtime == c.rows[q].localMtime
    decreases |dirty|
  {
    if dirty != [] {
      var rest, p := LastUpload(c, remote, strategy, dirty);
      var before := UploadEach(c, remote, strategy, rest);
      NewerNodeKept(c, remote, strategy, rest, q);
      TurnRemote(c, remote, strategy, rest, p);
      OneUpload(before.0, before.1, strategy, p, c.rows[p], q);
    }
  }

  // ---------- A dirty file whose remote has moved ----------

  /** A conflict is recorded: the local bytes stay, the row waits for a decision and knows the remote time, and the
      record holds both times. */
  predicate MarkedConflict(before: Cell, after: Cell, remoteMtime: int) {
    && before.row.Some? && after.row.Some? && after.file == before.file
    && after.row.value.state.Conflict? && after.row.value.remoteMtime == remoteMtime
    && after.row.value == before.row.value.(state := after.row.value.state, remoteMtime := remoteMtime)
    && after.conflict.Some? && after.conflict.value.localMtime == before.row.value.localMtime
    && after.conflict.value.remoteMtime == remoteMtime
  }

  /** The remote version has replaced the local one: bytes, size and times; the rest of the row stays. */
  predicate TookRemote(before: Cell, after: Cell, node: Node) {
    && before.row.Some? && after.row.Some? && !node.isDir && after.file == Some(node.content)
    && after.conflict == before.conflict
    && var e, f := before.row.value, after.row.value;
      && f.state.Clean? && f.size == |node.content| && f.remoteMtime == f.localMtime == node.mtime && !f.syncError
      && f == e.(state := f.state, size := f.size, remoteMtime := f.remoteMtime, localMtime := f.localMtime,
                 syncError := f.syncError)
  }

  /** What an upload pass makes of a dirty file whose remote has moved, under each strategy. The remote is left
      alone in any case. */
  lemma MovedEdit(c: Cache, remote: Remote, strategy: Strategy, dirty: seq<Path>, p: Path)
    requires DirtyListing(c, dirty) && p in dirty && HasMoved(remote, p, c.rows[p])
    requires !PassOverwrites(c, remote, strategy, dirty, p)
    ensures var (d, r) := UploadEach(c, remote, strategy, dirty);
      var before, after, node := At(c, p), At(d, p), remote.nodes[p];
      && Lookup(r.nodes, p) == Some(node)
      && (strategy.Both? || strategy.Manual? ==> MarkedConflict(before, after, node.mtime))
      && (strategy.RemoteWins? ==>
            if Get(remote, p).Some? then TookRemote(before, after, node)
            else after == before.(file := None))
      && (strategy.LocalWins? ==>
            && after.row.Some? && DirtyCell(after) && after.file == before.file && after.conflict == before.conflict
            && !after.row.value.syncError
            && after.row.value == c.rows[p].(state := after.row.value.state, syncError := false))
  {
    PassOwn(c, remote, strategy, dirty, p);
    PassUploads(c, remote, strategy, dirty, p);
  }

  /** Strategy both also saves the remote version next to it. */
  lemma MovedCopy(c: Cache, remote: Remote, dirty: seq<Path>, p: Path)
    requires DirtyListing(c, dirty) && p in dirty && HasMoved(remote, p, c.rows[p])
    ensures var d, q, node := UploadEach(c, remote, Both, dirty).0, SidecarOf(remote, p), remote.nodes[p];
      && Lookup(d.files, q) == Get(remote, p)
      && (q !in dirty && Get(remote, p).Some? ==>
            && q in d.rows && !d.rows[q].isDir && d.rows[q].state.Clean? && d.rows[q].size == |node.content|
            && d.rows[q].remoteMtime == d.rows[q].localMtime == node.mtime)
  {
    var j: nat :| j < |dirty| && dirty[j] == p;
    var d, q := UploadEach(c, remote, Both, dirty).0, SidecarOf(remote, p);
    assert PassSaves(c, remote, dirty, j, q);
    PassCopy(c, remote, dirty, j, q);
    assert At(d, q).file == Lookup(d.files, q) && At(d, q).row == Lookup(d.rows, q);
  }

  /** A transfer that fails leaves the edit, and an error in its row; one that succeeds leaves none. */
  lemma TransferNoted(c: Cache, remote: Remote, strategy: Strategy, dirty: seq<Path>, p: Path)
    requires DirtyListing(c, dirty) && p in dirty && !HasMoved(remote, p, c.rows[p]) && p in c.files
    requires !PassOverwrites(c, remote, strategy, dirty, p)
    ensures var after, e := At(UploadEach(c, remote, strategy, dirty).0, p), c.rows[p];
      && after.file == At(c, p).file && after.row.Some?
      && after.row.value.syncError == (p in remote.broken) && after.row.value.state.Clean? == (p !in remote.broken)
      && (if p in remote.broken then after.row.value.state.Dirty? && after.row.value.remoteMtime == e.remoteMtime
          else after.row.value.remoteMtime == e.localMtime)
      && after.row.value == e.(state := after.row.value.state, remoteMtime := after.row.value.remoteMtime,
                               syncError := after.row.value.syncError)
  {
    PassOwn(c, remote, strategy, dirty, p);
  }

  // ---------- The whole cycle ----------

  /** The state between the uploads and the pull. */
  ghost function BeforePull(s: State, strategy: Strategy, dirty: seq<Path>, fails: Outcome): State
    requires DirtyListing(s.cache, dirty)
  {
    ServeOps(Uploaded(s, strategy, dirty), fails)
  }

  /** No copy is saved over `p`, neither in the upload pass nor in the pull. */
  ghost predicate NoCopyOver(s: State, strategy: Strategy, dirty: seq<Path>, fails: Outcome, listings: Listings,
                             p: Path)
    requires DirtyListing(s.cache, dirty) && WellListed(BeforePull(s, strategy, dirty, fails).remote, listings)
  {
    && !PassOverwrites(s.cache, s.remote, strategy, dirty, p)
    && var t := BeforePull(s, strategy, dirty, fails);
      !Overwritten(t.cache, strategy, t.remote, listings, p)
  }

  lemma CycleOwn(s: State, strategy: Strategy, dirty: seq<Path>, fails: Outcome, listings: Listings, p: Path)
    requires DirtyListing(s.cache, dirty) && WellListed(BeforePull(s, strategy, dirty, fails).remote, listings)
    requires NoCopyOver(s, strategy, dirty, fails, listings, p)
    ensures var u, t := EngineCycle(s, strategy, dirty, fails, listings), BeforePull(s, strategy, dirty, fails);
      && t.cache == UploadEach(s.cache, s.remote, strategy, dirty).0 && t.remote.broken == s.remote.broken
      && At(u.cache, p) == PulledCell(strategy, t.remote, p, At(t.cache, p))
      && u.remote == t.remote
      && Lookup(t.remote.nodes, p) == if SomeDeletes(Done(fails, Batch(s.ops)), p) then None
                                      else Lookup(UploadEach(s.cache, s.remote, strategy, dirty).1.nodes, p)
  {
    var t := BeforePull(s, strategy, dirty, fails);
    PassRemote(s.cache, s.remote, strategy, dirty, p);
    RunOpsEffect(Uploaded(s, strategy, dirty).remote, Done(fails, Batch(s.ops)), p);
    PullOwn(t.cache, strategy, t.remote, listings, p);
  }

  /** No silent loss under both and manual: after a whole cycle a dirty file whose remote has moved still has its
      bytes, is a conflict on record, and its remote version is untouched but for a delete that was queued. */
  lemma MovedKept(s: State, strategy: Strategy, dirty: seq<Path>, fails: Outcome, listings: Listings, p: Path)
    requires DirtyListing(s.cache, dirty) && WellListed(BeforePull(s, strategy, dirty, fails).remote, listings)
    requires strategy.Both? || strategy.Manual?
    requires p in dirty && HasMoved(s.remote, p, s.cache.rows[p])
    requires NoCopyOver(s, strategy, dirty, fails, listings, p)
    ensures var u := EngineCycle(s, strategy, dirty, fails, listings);
      && MarkedConflict(At(s.cache, p), At(u.cache, p), s.remote.nodes[p].mtime)
      && Lookup(u.remote.nodes, p) == if SomeDeletes(Done(fails, Batch(s.ops)), p) then None
                                      else Some(s.remote.nodes[p])
  {
    CycleOwn(s, strategy, dirty, fails, listings, p);
    MovedEdit(s.cache, s.remote, strategy, dirty, p);
  }

  /** Under remote-wins the local file is the remote one after the cycle, or gone if the download fails or if a
      queued delete has removed the remote file, and the directory is still there. */
  lemma MovedReplaced(s: State, dirty: seq<Path>, fails: Outcome, listings: Listings, p: Path)
    requires DirtyListing(s.cache, dirty) && WellListed(BeforePull(s, RemoteWins, dirty, fails).remote, listings)
    requires p in dirty && HasMoved(s.remote, p, s.cache.rows[p])
    ensures var u := EngineCycle(s, RemoteWins, dirty, fails, listings);
      if Get(s.remote, p).None? then At(u.cache, p).file.None?
      else if SomeDeletes(Done(fails, Batch(s.ops)), p) && IsDirectory(u.remote, Parent(p)) then
        At(u.cache, p).file.None? && At(u.cache, p).row.None?
      else TookRemote(At(s.cache, p), At(u.cache, p), s.remote.nodes[p])
  {
    var t := BeforePull(s, RemoteWins, dirty, fails);
    CycleOwn(s, RemoteWins, dirty, fails, listings, p);
    MovedEdit(s.cache, s.remote, RemoteWins, dirty, p);
    if Get(s.remote, p).Some? {
      TakenPulled(t.remote, p, At(s.cache, p), At(t.cache, p), s.remote.nodes[p]);
    } else {
      GonePulled(s.remote, t.remote, p, At(t.cache, p));
    }
  }

  lemma TakenPulled(remote: Remote, p: Path, before: Cell, cell: Cell, node: Node)
    requires TookRemote(before, cell, node) && (p in remote.nodes ==> remote.nodes[p] == node)
    requires p != []
    ensures var after := PulledCell(RemoteWins, remote, p, cell);
      if p !in remote.nodes && IsDirectory(remote, Parent(p)) then after.file.None? && after.row.None?
      else TookRemote(before, after, node)
  {
  }

  lemma GonePulled(remote: Remote, later: Remote, p: Path, cell: Cell)
    requires cell.file.None? && Get(remote, p).None? && later.broken == remote.broken
    requires Lookup(later.nodes, p) == None || Lookup(later.nodes, p) == Lookup(remote.nodes, p)
    ensures PulledCell(RemoteWins, later, p, cell).file.None?
  {
  }

  /** A conflict is left alone by every later cycle until somebody resolves it. */
  lemma ConflictStays(s: State, strategy: Strategy, dirty: seq<Path>, fails: Outcome, listings: Listings, p: Path)
    requires DirtyListing(s.cache, dirty) && WellListed(BeforePull(s, strategy, dirty, fails).remote, listings)
    requires p in s.cache.rows && s.cache.rows[p].state.Conflict?
    requires NoCopyOver(s, strategy, dirty, fails, listings, p)
    ensures var u := EngineCycle(s, strategy, dirty, fails, listings);
      && At(u.cache, p) == At(s.cache, p)
      && Lookup(u.remote.nodes, p) == if SomeDeletes(Done(fails, Batch(s.ops)), p) then None
                                      else Lookup(s.remote.nodes, p)
  {
    var t := BeforePull(s, strategy, dirty, fails);
    CycleOwn(s, strategy, dirty, fails, listings, p);
    ConflictNotListed(s.cache, s.remote, strategy, dirty, p);
    assert At(t.cache, p) == At(s.cache, p);
    ConflictPulled(strategy, t.remote, p, At(s.cache, p));
  }

  lemma ConflictPulled(strategy: Strategy, remote: Remote, p: Path, cell: Cell)
    requires cell.row.Some? && cell.row.value.state.Conflict?
    ensures PulledCell(strategy, remote, p, cell) == cell
  {
  }

  lemma ConflictNotListed(c: Cache, remote: Remote, strategy: Strategy, dirty: seq<Path>, p: Path)
    requires DirtyListing(c, dirty) && !PassOverwrites(c, remote, strategy, dirty, p)
    requires p in c.rows && c.rows[p].state.Conflict?
    ensures var (d, r) := UploadEach(c, remote, strategy, dirty);
      At(d, p) == At(c, p) && Lookup(r.nodes, p) == Lookup(remote.nodes, p)
  {
    assert p !in dirty;
    PassOwn(c, remote, strategy, dirty, p);
    PassRemote(c, remote, strategy, dirty, p);
  }
}
