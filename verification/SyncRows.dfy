/** The rows that pull and upload write: field by field, and whether a clean file has its cache file, under
    every strategy. */
module SyncRows {
  import opened Basics
  import opened Paths
  import opened Sync
  import opened SyncPull
  import opened SyncCycle
  import opened SyncSaved
  import opened SyncUploads

  // ---------- Rows written by a pull ----------

  /** A remote path that was unknown gets a row that says what is there and that nothing is cached. */
  lemma NewPathRow(c: Cache, strategy: Strategy, remote: Remote, listings: Listings, p: Path)
    requires WellListed(remote, listings) && p in remote.nodes && p !in c.rows
    requires !Overwritten(c, strategy, remote, listings, p)
    ensures var d, node := Pull(c, strategy, remote, listings), remote.nodes[p];
      && p in d.rows && At(d, p).file == At(c, p).file && At(d, p).conflict == At(c, p).conflict
      && var e := d.rows[p];
        && e.state.Evicted? && e.ranges.None? && e.isDir == node.isDir && e.size == |node.content|
        && e.remoteMtime == e.localMtime == node.mtime && !e.syncError && !e.pinned
  {
    PullOwn(c, strategy, remote, listings, p);
    assert At(Pull(c, strategy, remote, listings), p).row.Some?;
  }

  /** A path whose remote is newer and that holds no local data is evicted again, with the size and time of the
      remote file. All the rest of the row stays, the ranges too. */
  lemma NewerPathRow(c: Cache, strategy: Strategy, remote: Remote, listings: Listings, p: Path)
    requires WellListed(remote, listings) && p in remote.nodes && p in c.rows
    requires !Overwritten(c, strategy, remote, listings, p)
    requires remote.nodes[p].mtime > c.rows[p].remoteMtime && (c.rows[p].state.Clean? || c.rows[p].state.Evicted?)
    ensures var d, node := Pull(c, strategy, remote, listings), remote.nodes[p];
      && p in d.rows && p !in d.files && At(d, p).conflict == At(c, p).conflict
      && var e, f := c.rows[p], d.rows[p];
        && f.state.Evicted? && f.size == |node.content| && f.remoteMtime == node.mtime
        && f == e.(state := f.state, size := f.size, remoteMtime := f.remoteMtime)
  {
    PullOwn(c, strategy, remote, listings, p);
    assert At(Pull(c, strategy, remote, listings), p).row.Some?;
    assert At(Pull(c, strategy, remote, listings), p).file.None?;
  }

  /** A path whose remote is not newer stays as it is, and so does, whatever the remote, one that is neither clean
      nor evicted nor an edit. */
  lemma SettledPathRow(c: Cache, strategy: Strategy, remote: Remote, listings: Listings, p: Path)
    requires WellListed(remote, listings) && p in remote.nodes && p in c.rows
    requires !Overwritten(c, strategy, remote, listings, p)
    requires remote.nodes[p].mtime <= c.rows[p].remoteMtime
          || !(c.rows[p].state.Clean? || c.rows[p].state.Evicted? || c.rows[p].state.Dirty? || c.rows[p].state.Syncing?)
    ensures At(Pull(c, strategy, remote, listings), p) == At(c, p)
  {
    PullOwn(c, strategy, remote, listings, p);
  }

  /** What each strategy makes of an edit whose remote is newer. */
  ghost predicate SettledBy(strategy: Strategy, remote: Remote, p: Path, before: Cell, after: Cell)
    requires p in remote.nodes && before.row.Some?
  {
    var node, e := remote.nodes[p], before.row.value;
    match strategy
    case LocalWins =>
      && DirtyCell(after) && after.file == before.file && after.conflict == before.conflict
      && after.row.value.remoteMtime == node.mtime && !after.row.value.syncError
      && after.row.value == e.(state := after.row.value.state, remoteMtime := node.mtime, syncError := false)
    case RemoteWins => if Get(remote, p).Some? then TookRemote(before, after, node) else after == before.(file := None)
    case Manual => MarkedConflict(before, after, node.mtime)
    case Both => MarkedConflict(before, after, node.mtime)
  }

  lemma EditPulled(strategy: Strategy, remote: Remote, p: Path, cell: Cell)
    requires p in remote.nodes && Meets(remote.nodes[p], cell) && !cell.row.value.isDir
    ensures SettledBy(strategy, remote, p, cell, PulledCell(strategy, remote, p, cell))
  {
    match strategy
    case LocalWins =>
    case RemoteWins => assert Get(remote, p).Some? ==> !remote.nodes[p].isDir;
    case Manual =>
    case Both =>
  }

  /** An edit whose remote is newer is settled by the strategy, in the pull as in the upload. */
  lemma EditPathRow(c: Cache, strategy: Strategy, remote: Remote, listings: Listings, p: Path)
    requires WellListed(remote, listings) && p in remote.nodes && Meets(remote.nodes[p], At(c, p)) && !c.rows[p].isDir
    requires !Overwritten(c, strategy, remote, listings, p)
    ensures SettledBy(strategy, remote, p, At(c, p), At(Pull(c, strategy, remote, listings), p))
  {
    PullOwn(c, strategy, remote, listings, p);
    EditPulled(strategy, remote, p, At(c, p));
  }

  // ---------- Clean files are cached ----------

  /** A row that says a file is clean has its cache file: only then can the file be opened without a download. */
  predicate Backed(cell: Cell) {
    cell.row.Some? && cell.row.value.state.Clean? && !cell.row.value.isDir ==> cell.file.Some?
  }

  ghost predicate AllBacked(c: Cache) {
    forall p :: Backed(At(c, p))
  }

  lemma PulledBacked(strategy: Strategy, remote: Remote, p: Path, cell: Cell)
    requires Backed(cell)
    ensures Backed(PulledCell(strategy, remote, p, cell))
  {
  }

  /** The copy of the j-th file of the directory comes to a clean file, but its download fails; and the remote
      file of that name is not newer than the row. */
  ghost predicate Unbacks(c: Cache, remote: Remote, listings: Listings, j: nat, p: Path)
    requires WellListed(remote, listings)
  {
    && SavesTo(c, remote, listings, j, p) && Get(remote, Source(c, remote, listings, j, p)).None?
    && p in c.rows && c.rows[p].state.Clean? && !c.rows[p].isDir
    && p in remote.nodes && remote.nodes[p].mtime <= c.rows[p].remoteMtime
  }

  lemma CopyCellBacked(node: Option<Node>, earlier: bool, copy: Option<seq<Byte>>, from: Node, cell: Cell)
    requires Backed(cell)
    ensures Backed(CopyCell(node, earlier, copy, from, cell)) <==>
      !(copy.None? && cell.row.Some? && cell.row.value.state.Clean? && !cell.row.value.isDir
        && node.Some? && node.value.mtime <= cell.row.value.remoteMtime)
  {
  }

  lemma BackedUnderCopy(c: Cache, remote: Remote, listings: Listings, j: nat, p: Path)
    requires WellListed(remote, listings) && Backed(At(c, p)) && SavesTo(c, remote, listings, j, p)
    ensures Backed(At(Pull(c, Both, remote, listings), p)) <==> !Unbacks(c, remote, listings, j, p)
  {
    var x := Source(c, remote, listings, j, p);
    PullSaved(c, remote, listings, j, p);
    CopyCellBacked(Lookup(remote.nodes, p), Earlier(remote, listings, j, p), Get(remote, x), remote.nodes[x], At(c, p));
  }

  /** A pull keeps a clean file backed, whatever the strategy, with one exact exception: strategy both clears the
      place of a copy whose download fails, and a clean listed file has that name. */
  lemma PullBacked(c: Cache, strategy: Strategy, remote: Remote, listings: Listings, p: Path)
    requires WellListed(remote, listings) && Backed(At(c, p))
    ensures Backed(At(Pull(c, strategy, remote, listings), p)) <==>
      !(strategy.Both? && exists j: nat :: Unbacks(c, remote, listings, j, p))
  {
    if Overwritten(c, strategy, remote, listings, p) {
      var j: nat :| SavesTo(c, remote, listings, j, p);
      BackedUnderCopy(c, remote, listings, j, p);
      forall k: nat | Unbacks(c, remote, listings, k, p) ensures Unbacks(c, remote, listings, j, p) {
        OneSource(c, remote, listings, j, k, p);
      }
    } else {
      PullOwn(c, strategy, remote, listings, p);
      PulledBacked(strategy, remote, p, At(c, p));
    }
  }

  // ---------- The upload pass ----------

  /** The copy of the j-th upload comes to `q`, but its download fails; and `q` is a clean file, or one that the
      pass has made clean by its upload before. */
  ghost predicate PassUnbacks(c: Cache, remote: Remote, dirty: seq<Path>, j: nat, q: Path) {
    && PassSaves(c, remote, dirty, j, q) && Get(remote, dirty[j]).None?
    && q in c.rows && !c.rows[q].isDir
    && if q in dirty then q in dirty[..j] && GoesThrough(remote, q, c.rows[q], At(c, q)) else c.rows[q].state.Clean?
  }

  lemma OwnBacked(strategy: Strategy, remote: Remote, p: Path, e: Entry, cell: Cell)
    requires !e.isDir && !e.state.Clean? && Backed(cell)
    ensures cell.row == Some(e) || strategy.Both? ==> Backed(OwnUpload(strategy, remote, p, e, cell))
    ensures OwnUpload(Both, remote, p, e, cell).file == cell.file
    ensures cell.row == Some(e) ==>
      var after := OwnUpload(Both, remote, p, e, cell);
      after.row.Some? && !after.row.value.isDir
          && (after.row.value.state.Clean? <==> GoesThrough(remote, p, e, cell))
  {
  }

  /** The cell of `q` when the copy comes. */
  lemma BackedBefore(c: Cache, remote: Remote, dirty: seq<Path>, rest: seq<Path>, q: Path)
    requires DirtyListing(c, dirty) && dirty != [] && rest == dirty[..|dirty| - 1] && DirtyListing(c, rest)
    requires PassSaves(c, remote, dirty, |rest|, q) && Backed(At(c, q))
    ensures var cell := At(UploadEach(c, remote, Both, rest).0, q);
      Backed(cell.(file := None)) <==>
      !(q in c.rows && !c.rows[q].isDir
        && if q in rest then GoesThrough(remote, q, c.rows[q], At(c, q)) else c.rows[q].state.Clean?)
  {
    forall k: nat ensures !PassSaves(c, remote, rest, k, q) {
      if PassSaves(c, remote, rest, k, q) {
        assert PassSaves(c, remote, dirty, k, q);
        PassSavesOnce(c, remote, dirty, |rest|, k, q);
      }
    }
    PassOwn(c, remote, Both, rest, q);
    if q in rest {
      OwnBacked(Both, remote, q, c.rows[q], At(c, q));
    }
  }

  lemma SavedBacked(copy: Option<seq<Byte>>, from: Node, cell: Cell)
    ensures Backed(SavedCell(copy, from, cell)) <==> copy.Some? || Backed(cell.(file := None))
  {
  }

  lemma {:induction false} PassBackedUnder(c: Cache, remote: Remote, dirty: seq<Path>, j: nat, q: Path)
    requires DirtyListing(c, dirty) && PassSaves(c, remote, dirty, j, q) && Backed(At(c, q))
    ensures Backed(At(UploadEach(c, remote, Both, dirty).0, q)) <==> !PassUnbacks(c, remote, dirty, j, q)
    decreases |dirty|, 1
  {
    var rest, p := LastUpload(c, remote, Both, dirty);
    var before := UploadEach(c, remote, Both, rest);
    PassSavesOnce(c, remote, dirty, j, j, q);
    TurnRemote(c, remote, Both, rest, p);
    OneUpload(before.0, before.1, Both, p, c.rows[p], q);
    if j == |rest| {
      assert dirty[..j] == rest && dirty[j] == p;
      BackedBefore(c, remote, dirty, rest, q);
      SavedBacked(Get(remote, p), remote.nodes[p], At(before.0, q));
    } else {
      PassBackedLater(c, remote, dirty, rest, p, j, q);
    }
  }

  lemma {:induction false} PassBackedLater(c: Cache, remote: Remote, dirty: seq<Path>, rest: seq<Path>, p: Path, j: nat,
                                           q: Path)
    requires DirtyListing(c, dirty) && PassSaves(c, remote, dirty, j, q) && Backed(At(c, q))
    requires dirty == rest + [p] && DirtyListing(c, rest) && p !in rest && p in dirty && j < |rest|
    requires forall x :: x in dirty <==> x in rest || x == p
    requires var before := UploadEach(c, remote, Both, rest);
      UploadEach(c, remote, Both, dirty) == UploadFile(before.0, before.1, Both, p, c.rows[p])
    ensures Backed(At(UploadEach(c, remote, Both, dirty).0, q)) <==> !PassUnbacks(c, remote, dirty, j, q)
    decreases |dirty|, 0
  {
    var before := UploadEach(c, remote, Both, rest);
    assert dirty[..j] == rest[..j] && dirty[j] == rest[j] && PassSaves(c, remote, rest, j, q);
    PassBackedUnder(c, remote, rest, j, q);
    TurnRemote(c, remote, Both, rest, p);
    OneUpload(before.0, before.1, Both, p, c.rows[p], q);
    if q == p {
      assert p !in rest[..j] && !PassUnbacks(c, remote, rest, j, q);
      OwnBacked(Both, before.1, p, c.rows[p], At(before.0, p));
    } else if PassSaves(c, remote, dirty, |rest|, q) {
      PassSavesOnce(c, remote, dirty, j, |rest|, q);
    }
  }

  /** The same exact exception for the upload pass, in which the order of the uploads matters. */
  lemma PassBacked(c: Cache, remote: Remote, strategy: Strategy, dirty: seq<Path>, q: Path)
    requires DirtyListing(c, dirty) && Backed(At(c, q))
    ensures Backed(At(UploadEach(c, remote, strategy, dirty).0, q)) <==>
      !(strategy.Both? && exists j: nat :: PassUnbacks(c, remote, dirty, j, q))
  {
    if PassOverwrites(c, remote, strategy, dirty, q) {
      var j: nat :| PassSaves(c, remote, dirty, j, q);
      PassBackedUnder(c, remote, dirty, j, q);
      forall k: nat | PassUnbacks(c, remote, dirty, k, q) ensures PassUnbacks(c, remote, dirty, j, q) {
        PassSavesOnce(c, remote, dirty, j, k, q);
      }
    } else {
      PassOwn(c, remote, strategy, dirty, q);
      if q in dirty {
        OwnBacked(strategy, remote, q, c.rows[q], At(c, q));
      }
    }
  }

  // ---------- Runs of cycles ----------

  /** One cycle of the engine, with any listings and failures. */
  ghost predicate CycleTo(strategy: Strategy, s: State, u: State) {
    exists dirty, fails, listings ::
      && DirtyListing(s.cache, dirty) && WellListed(BeforePull(s, strategy, dirty, fails).remote, listings)
      && u == EngineCycle(s, strategy, dirty, fails, listings) && CopiesCome(s, strategy, dirty, fails, listings)
  }

  /** Under strategy both no download of a copy fails over a clean file. */
  ghost predicate CopiesCome(s: State, strategy: Strategy, dirty: seq<Path>, fails: Outcome, listings: Listings)
    requires DirtyListing(s.cache, dirty) && WellListed(BeforePull(s, strategy, dirty, fails).remote, listings)
  {
    strategy.Both? ==>
      && (forall j: nat, p :: !PassUnbacks(s.cache, s.remote, dirty, j, p))
      && var t := BeforePull(s, strategy, dirty, fails);
        forall j: nat, p :: !Unbacks(t.cache, t.remote, listings, j, p)
  }

  lemma CycleBacked(strategy: Strategy, s: State, u: State)
    requires AllBacked(s.cache) && CycleTo(strategy, s, u)
    ensures AllBacked(u.cache)
  {
    var dirty, fails, listings :|
      && DirtyListing(s.cache, dirty) && WellListed(BeforePull(s, strategy, dirty, fails).remote, listings)
      && u == EngineCycle(s, strategy, dirty, fails, listings) && CopiesCome(s, strategy, dirty, fails, listings);
    var t := BeforePull(s, strategy, dirty, fails);
    forall p ensures Backed(At(u.cache, p)) {
      PassBacked(s.cache, s.remote, strategy, dirty, p);
      PullBacked(t.cache, strategy, t.remote, listings, p);
    }
  }

  /** Over any number of cycles every clean file keeps its cache file: always under local-wins, remote-wins and
      manual, and under both as long as no download of a copy fails over a clean file. */
  lemma {:induction false} RunBacked(strategy: Strategy, states: seq<State>)
    requires states != [] && AllBacked(states[0].cache)
    requires forall i | 0 <= i < |states| - 1 :: CycleTo(strategy, states[i], states[i + 1])
    ensures AllBacked(states[|states| - 1].cache)
    decreases |states|
  {
    if |states| > 1 {
      CycleBacked(strategy, states[0], states[1]);
      RunBacked(strategy, states[1..]);
    }
  }
}
