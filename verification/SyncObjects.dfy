/** The metadata store, the conflict resolver and the sync engine as objects: every method leaves the
    value that the functions of `Sync` and `SyncCycle` give. */
module SyncObjects {
  import opened Basics
  import opened Paths
  import opened Sync
  import opened SyncPull
  import opened SyncCycle

  /** The database tables and the directory of cache files. */
  class Store {
    var rows: map<Path, Entry>
    var files: map<Path, seq<Byte>>
    var conflicts: map<Path, Record>

    ghost function Value(): Cache
      reads this
    {
      Cache(rows, files, conflicts)
    }

    constructor (c: Cache)
      ensures Value() == c
    {
      rows, files, conflicts := c.rows, c.files, c.conflicts;
    }

    /** An UPDATE of a missing row reports an error. */
    method SetState(p: Path, state: FileState) returns (ok: bool)
      modifies this`rows
      ensures ok == (p in old(rows))
      ensures rows == if ok then old(rows)[p := old(rows)[p].(state := state)] else old(rows)
    {
      ok := p in rows;
      if ok {
        rows := rows[p := rows[p].(state := state)];
      }
    }

    /** The rows whose paths are children of `dir`, in some order. */
    method ListDir(dir: Path) returns (listed: seq<Path>)
      ensures forall p :: p in listed <==> p in rows && ChildOf(dir, p)
      ensures forall i, j | 0 <= i < j < |listed| :: listed[i] != listed[j]
    {
      listed := Select(p => ChildOf(dir, p));
    }

    method ListDirtyFiles() returns (listed: seq<Path>)
      ensures forall p :: p in listed <==> IsDirtyFile(Value(), p)
      ensures forall i, j | 0 <= i < j < |listed| :: listed[i] != listed[j]
    {
      var current := rows;
      listed := Select(p => p in current && current[p].state.Dirty? && !current[p].isDir);
    }

    method Select(wanted: Path -> bool) returns (listed: seq<Path>)
      ensures forall p :: p in listed <==> p in rows && wanted(p)
      ensures forall i, j | 0 <= i < j < |listed| :: listed[i] != listed[j]
    {
      var rest := rows.Keys;
      listed := [];
      while rest != {}
        invariant rest <= rows.Keys
        invariant forall p :: p in listed <==> p in rows && p !in rest && wanted(p)
        invariant forall i, j | 0 <= i < j < |listed| :: listed[i] != listed[j]
        decreases rest
      {
        var p :| p in rest;
        if wanted(p) {
          listed := listed + [p];
        }
        rest := rest - {p};
      }
    }

    /** The resolver writes the conflict record, the cache file and the rows in this order. */
    method Resolve(strategy: Strategy, remote: Remote, p: Path, e: Entry, node: Node)
      requires p != []
      modifies this
      ensures Value() == Sync.Resolve(old(Value()), strategy, remote, p, e, node)
    {
      match strategy
      case LocalWins =>
        rows := rows[p := e.(state := Dirty, syncError := false)];
      case RemoteWins =>
        if !e.isDir {
          files := files[p := []];
          var got := Get(remote, p);
          if got.None? {
            files := files - {p};
          } else {
            files := files[p := got.value];
            rows := rows[p := e.(state := Clean, remoteMtime := node.mtime, localMtime := node.mtime,
                                 size := |node.content|, syncError := false)];
          }
        }
      case Manual =>
        conflicts := conflicts[p := Record(e.localMtime, node.mtime)];
        rows := rows[p := e.(state := Conflict, remoteMtime := node.mtime)];
      case Both =>
        conflicts := conflicts[p := Record(e.localMtime, node.mtime)];
        var q := Sidecar(p, node.mtime);
        files := files[q := []];
        var got := Get(remote, p);
        if got.None? {
          files := files - {q};
        } else {
          files := files[q := got.value];
          rows := rows[q := SidecarEntry(node)];
        }
        rows := rows[p := e.(state := Conflict, remoteMtime := node.mtime)];
    }
  }

  class Engine {
    const store: Store
    const strategy: Strategy
    /** The tree behind the adapter, and the queue of pending operations. */
    var remote: Remote
    var ops: seq<Op>

    constructor (store: Store, strategy: Strategy, remote: Remote, ops: seq<Op>)
      ensures this.store == store && this.strategy == strategy && this.remote == remote && this.ops == ops
    {
      this.store, this.strategy, this.remote, this.ops := store, strategy, remote, ops;
    }

    ghost function Value(): State
      reads this, store
    {
      State(store.Value(), remote, ops)
    }

    method UploadFile(p: Path, e: Entry)
      requires p != []
      modifies this`remote, store
      ensures (store.Value(), remote) == SyncCycle.UploadFile(old(store.Value()), old(remote), strategy, p, e)
    {
      if e.remoteMtime > 0 && p in remote.nodes && remote.nodes[p].mtime > e.remoteMtime {
        store.Resolve(strategy, remote, p, e, remote.nodes[p]);
        return;
      }
      Send(p, e);
    }

    /** The row is Syncing while the transfer runs, and Dirty again if it fails. */
    method Send(p: Path, e: Entry)
      requires p != [] && !Moved(Lookup(remote.nodes, p), e)
      modifies this`remote, store
      ensures (store.Value(), remote) == SyncCycle.UploadFile(old(store.Value()), old(remote), strategy, p, e)
    {
      var known := store.SetState(p, Syncing);
      if !known {
        return;
      }
      if p !in store.files {
        var _ := store.SetState(p, Dirty);
        SameUpdate(old(store.rows), p, Syncing, old(store.rows)[p].(state := Dirty));
      } else if p in remote.broken {
        FailPut(p, e);
        SameUpdate(old(store.rows), p, Syncing, e.(state := Dirty, syncError := true));
      } else {
        Put(p, e);
        SameUpdate(old(store.rows), p, Syncing, UploadedEntry(e));
      }
    }

    lemma SameUpdate(rows: map<Path, Entry>, p: Path, state: FileState, e: Entry)
      requires p in rows
      ensures rows[p := rows[p].(state := state)][p := e] == rows[p := e]
    {
    }

    method FailPut(p: Path, e: Entry)
      requires p in store.rows
      modifies store`rows
      ensures store.rows == old(store.rows)[p := e.(state := Dirty, syncError := true)]
    {
      var _ := store.SetState(p, Dirty);
      SameUpdate(old(store.rows), p, Dirty, e.(state := Dirty, syncError := true));
      store.rows := store.rows[p := e.(state := Dirty, syncError := true)];
    }

    method Put(p: Path, e: Entry)
      requires p in store.files
      modifies this`remote, store`rows
      ensures store.rows == old(store.rows)[p := UploadedEntry(e)]
      ensures remote == old(remote).(nodes := old(remote).nodes[p := Node(false, e.localMtime, store.files[p])])
    {
      remote := remote.(nodes := remote.nodes[p := Node(false, e.localMtime, store.files[p])]);
      store.rows := store.rows[p := e.(state := Clean, remoteMtime := e.localMtime, syncError := false)];
    }

    /** The dirty rows are read once, before the first upload. */
    method UploadDirty()
      requires [] !in store.rows
      modifies this`remote, store
      ensures exists dirty :: AllDirty(old(store.Value()), dirty) && Value() == Uploaded(old(Value()), strategy, dirty)
    {
      var dirty := store.ListDirtyFiles();
      var listed := store.rows;
      ghost var c, r := store.Value(), remote;
      assert DirtyListing(c, dirty);
      for i := 0 to |dirty|
        invariant forall p | p in dirty[..i] :: p in c.rows && p != []
        invariant (store.Value(), remote) == UploadEach(c, r, strategy, dirty[..i])
      {
        assert dirty[i] in dirty;
        assert dirty[..i + 1][..i] == dirty[..i] && dirty[..i + 1][i] == dirty[i];
        UploadFile(dirty[i], listed[dirty[i]]);
      }
      assert dirty[..|dirty|] == dirty;
      assert AllDirty(c, dirty);
    }

    method Replay(op: Op)
      modifies this`remote
      ensures remote == RunOp(old(remote), op)
    {
      ghost var next := RunOp(remote, op);
      if op.DeleteOp? {
        var kept := remote.nodes.Keys;
        remote := remote.(nodes := map p | p in kept && p != op.path && !Under(op.path, p) :: remote.nodes[p]);
      }
      assert remote.nodes == next.nodes;
    }

    /** The next operation of the batch stands behind the `k` that have failed. */
    method TryNext(fails: Outcome, ghost s: State, i: nat, k: nat) returns (failed: nat)
      requires Served(fails, s, i, k, ops, remote) && i < |Batch(s.ops)|
      modifies this`remote, this`ops
      ensures Served(fails, s, i + 1, failed, ops, remote)
    {
      ServeOne(fails, s, i, k, ops, remote);
      var op := ops[k];
      if op.DeleteOp? && fails(i, op) {
        failed := k + 1;
      } else {
        Replay(op);
        ops := ops[..k] + ops[k + 1..];
        failed := k;
      }
    }

    /** The ten oldest operations are tried in turn. What succeeds leaves the queue; what fails keeps its place. */
    method ProcessPendingOps(fails: Outcome)
      modifies this`remote, this`ops
      ensures Value() == ServeOps(old(Value()), fails)
    {
      ghost var s := Value();
      var n := |Batch(ops)|;
      var k := 0;
      for i := 0 to n
        invariant Served(fails, s, i, k, ops, remote)
      {
        k := TryNext(fails, s, i, k);
      }
      ServedAll(fails, s, k, ops, remote);
    }

    method PullEntry(p: Path)
      requires p in remote.nodes && p != []
      modifies store
      ensures store.Value() == Sync.PullEntry(old(store.Value()), strategy, remote, p)
    {
      var node := remote.nodes[p];
      if p !in store.rows {
        store.rows := store.rows[p := Entry(node.isDir, |node.content|, node.mtime, node.mtime, Evicted, None, false,
            false, 0)];
        return;
      }
      var e := store.rows[p];
      if node.mtime > e.remoteMtime {
        if e.state.Clean? || e.state.Evicted? {
          store.rows := store.rows[p := e.(state := Evicted, size := |node.content|, remoteMtime := node.mtime)];
          store.files := store.files - {p};
        } else if e.state.Dirty? || e.state.Syncing? {
          store.Resolve(strategy, remote, p, e.(remoteMtime := node.mtime), node);
        }
      }
    }

    /** The local children that are clean or evicted and were not seen remotely. */
    method DropGone(dir: Path, seen: set<Path>)
      modifies store
      ensures store.Value() == DropStale(old(store.Value()), dir, seen)
    {
      var local := store.ListDir(dir);
      var before := store.rows;
      ghost var c := store.Value();
      ghost var gone: set<Path> := {};
      for i := 0 to |local|
        invariant gone == (set p | p in local[..i] && Stale(c, dir, seen, p))
        invariant store.rows == c.rows - gone && store.files == c.files - gone && store.conflicts == c.conflicts
      {
        var p := local[i];
        assert p in local && local[..i + 1] == local[..i] + [p];
        if p !in seen && (before[p].state.Clean? || before[p].state.Evicted?) {
          gone := gone + {p};
          store.rows := store.rows - {p};
          store.files := store.files - {p};
        }
      }
      assert local[..|local|] == local;
    }

    method PullListed(listing: seq<Path>) returns (seen: set<Path>)
      requires forall p | p in listing :: p in remote.nodes && p != []
      modifies store
      ensures seen == (set p | p in listing)
      ensures store.Value() == PullEntries(old(store.Value()), strategy, remote, listing)
    {
      seen := {};
      ghost var c := store.Value();
      for i := 0 to |listing|
        invariant forall p | p in listing[..i] :: p in remote.nodes && p != []
        invariant seen == (set p | p in listing[..i])
        invariant store.Value() == PullEntries(c, strategy, remote, listing[..i])
      {
        assert listing[i] in listing;
        assert listing[..i + 1] == listing[..i] + [listing[i]];
        seen := seen + {listing[i]};
        PullEntry(listing[i]);
      }
      assert listing[..|listing|] == listing;
    }

    method PullChildren(listings: Listings, dir: Path, listing: seq<Path>)
      requires WellListed(remote, listings)
      requires forall p | p in listing :: p in remote.nodes && ChildOf(dir, p)
      modifies store
      ensures store.Value() == PullSubdirs(old(store.Value()), strategy, remote, listings, dir, listing)
      decreases Below(remote, dir), 0
    {
      ghost var level := store.Value();
      for i := 0 to |listing|
        invariant forall p | p in listing[..i] :: p in remote.nodes && ChildOf(dir, p)
        invariant store.Value() == PullSubdirs(level, strategy, remote, listings, dir, listing[..i])
      {
        assert listing[i] in listing;
        SubdirsSnoc(level, strategy, remote, listings, dir, listing[..i], listing[i]);
        assert listing[..i + 1] == listing[..i] + [listing[i]];
        BelowChild(remote, dir, listing[i]);
        if remote.nodes[listing[i]].isDir {
          PullDir(listings, listing[i]);
        }
      }
      assert listing[..|listing|] == listing;
    }

    method PullDir(listings: Listings, dir: Path)
      requires WellListed(remote, listings) && IsDirectory(remote, dir)
      modifies store
      ensures store.Value() == Sync.PullDir(old(store.Value()), strategy, remote, listings, dir)
      decreases Below(remote, dir), 1
    {
      assert ListedWell(remote, listings, dir);
      var listing := listings[dir];
      var seen := PullListed(listing);
      DropGone(dir, seen);
      PullChildren(listings, dir, listing);
    }

    /** One tick of the loop, with the listings that the adapter answers after the uploads. */
    method Tick(fails: Outcome, listings: Listings)
      requires [] !in store.rows
      requires forall dirty | AllDirty(store.Value(), dirty) ::
        WellListed(ServeOps(Uploaded(Value(), strategy, dirty), fails).remote, listings)
      modifies this`remote, this`ops, store
      ensures exists dirty ::
        AllDirty(old(store.Value()), dirty) && Value() == EngineCycle(old(Value()), strategy, dirty, fails, listings)
      ensures strategy.LocalWins? && NoneFails(fails) ==> Value() == Cycle(old(Value()))
    {
      ghost var s := Value();
      UploadDirty();
      ghost var dirty :| AllDirty(s.cache, dirty) && Value() == Uploaded(s, strategy, dirty);
      ProcessPendingOps(fails);
      PullDir(listings, []);
      assert Value() == EngineCycle(s, strategy, dirty, fails, listings);
      if strategy.LocalWins? && NoneFails(fails) {
        CycleIsPointwise(s, dirty, fails, listings);
      }
    }
  }
}
