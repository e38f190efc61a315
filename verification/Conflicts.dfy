/** Conflict records: what one `rvfs resolve` does, and whether rows in conflict always have a record,
    looked at after every single write of the engine and the command line together. */
module Conflicts {
  import opened Basics
  import opened Paths
  import opened Sync
  import opened SyncCycle
  import opened SyncConvergence
  import opened SyncTurns
  import opened SyncObjects

  // ---------- One resolution ----------

  datatype Keep = KeepLocal | KeepRemote | KeepBoth

  function Released(c: Cache, p: Path): Cache
    requires p in c.rows
  {
    c.(rows := c.rows[p := c.rows[p].(state := Dirty)], conflicts := c.conflicts - {p})
  }

  function SavedEntry(record: Record, content: seq<Byte>): Entry {
    Entry(false, |content|, record.remoteMtime, record.remoteMtime, Clean, None, false, false, 0)
  }

  /** The cache after `applyResolution`, and whether it succeeded. */
  function Applied(c: Cache, remote: Remote, p: Path, record: Record, keep: Keep): (Cache, bool)
    requires p != []
  {
    match keep
    case KeepLocal => if p in c.rows then (Released(c, p), true) else (c, false)
    case KeepRemote =>
      if p !in c.rows then (c, false)
      else (match Get(remote, p)
        case None => (c.(files := c.files - {p}), false)
        case Some(content) =>
          var e := c.rows[p].(state := Clean, remoteMtime := record.remoteMtime, localMtime := record.remoteMtime,
              syncError := false);
          (Cache(c.rows[p := e], c.files[p := content], c.conflicts - {p}), true))
    case KeepBoth =>
      var q := Sidecar(p, record.remoteMtime);
      if q in c.files then (if p in c.rows then (Released(c, p), true) else (c, false))
      else (match Get(remote, p)
        case None => (c, false)
        case Some(content) =>
          var d := c.(files := c.files[q := content], rows := c.rows[q := SavedEntry(record, content)]);
          if p in d.rows then (Released(d, p), true) else (d, false))
  }

  /** `applyResolution`, write by write. */
  method ApplyResolution(store: Store, remote: Remote, p: Path, record: Record, keep: Keep) returns (ok: bool)
    requires p != []
    modifies store
    ensures (store.Value(), ok) == Applied(old(store.Value()), remote, p, record, keep)
  {
    if keep.KeepRemote? {
      if p !in store.rows {
        return false;
      }
      store.files := store.files[p := []];
      var got := Get(remote, p);
      if got.None? {
        store.files := store.files - {p};
        assert store.files == old(store.files) - {p};
        return false;
      }
      store.files := store.files[p := got.value];
      assert store.files == old(store.files)[p := got.value];
      store.rows := store.rows[p := store.rows[p].(state := Clean, remoteMtime := record.remoteMtime,
                                                   localMtime := record.remoteMtime, syncError := false)];
      store.conflicts := store.conflicts - {p};
      return true;
    }
    if keep.KeepBoth? {
      var q := Sidecar(p, record.remoteMtime);
      if q !in store.files {
        store.files := store.files[q := []];
        var got := Get(remote, p);
        if got.None? {
          store.files := store.files - {q};
          assert store.files == old(store.files);
          return false;
        }
        store.files := store.files[q := got.value];
        assert store.files == old(store.files)[q := got.value];
        store.rows := store.rows[q := SavedEntry(record, got.value)];
      }
    }
    ok := store.SetState(p, Dirty);
    if ok {
      store.conflicts := store.conflicts - {p};
    }
  }

  /** A successful resolution leaves no record and no row in conflict at the path. */
  lemma ResolvedPath(c: Cache, remote: Remote, p: Path, record: Record, keep: Keep)
    requires p != [] && Applied(c, remote, p, record, keep).1
    ensures var d := Applied(c, remote, p, record, keep).0;
      && p !in d.conflicts && p in d.rows && !d.rows[p].state.Conflict?
      && (keep.KeepRemote? ==> Lookup(d.files, p) == Get(remote, p))
      && (!keep.KeepRemote? ==> Lookup(d.files, p) == Lookup(c.files, p))
      && (keep.KeepBoth? ==> Sidecar(p, record.remoteMtime) in d.files)
  {
    SidecarSibling(Parent(p), p, record.remoteMtime);
  }

  /** When the command reports success: the row is there, and the remote version too if it is needed. */
  lemma SucceedsExactly(c: Cache, remote: Remote, p: Path, record: Record, keep: Keep)
    requires p != []
    ensures Applied(c, remote, p, record, keep).1 <==>
      && p in c.rows
      && (keep.KeepRemote? ==> Get(remote, p).Some?)
      && (keep.KeepBoth? ==> Sidecar(p, record.remoteMtime) in c.files || Get(remote, p).Some?)
  {
    SidecarSibling(Parent(p), p, record.remoteMtime);
  }

  /** The row of the path after a success: local data that waits for its upload, or the remote version with the
      times of the record; nothing else in it changes. */
  lemma ResolvedRow(c: Cache, remote: Remote, p: Path, record: Record, keep: Keep)
    requires p != [] && Applied(c, remote, p, record, keep).1
    ensures p in c.rows && p in Applied(c, remote, p, record, keep).0.rows
    ensures var e, f := c.rows[p], Applied(c, remote, p, record, keep).0.rows[p];
      && f == e.(state := f.state, remoteMtime := f.remoteMtime, localMtime := f.localMtime, syncError := f.syncError)
      && (if keep.KeepRemote? then
            f.state.Clean? && f.remoteMtime == f.localMtime == record.remoteMtime && !f.syncError
          else
            f.state.Dirty? && f.remoteMtime == e.remoteMtime && f.localMtime == e.localMtime
                && f.syncError == e.syncError)
  {
    SidecarSibling(Parent(p), p, record.remoteMtime);
  }

  /** Keeping both saves the remote version next to the local one, unless a file is there already: its bytes,
      and a clean row of their size with the time of the record. */
  lemma BothKept(c: Cache, remote: Remote, p: Path, record: Record)
    requires p != [] && Applied(c, remote, p, record, KeepBoth).1
    ensures var d, q := Applied(c, remote, p, record, KeepBoth).0, Sidecar(p, record.remoteMtime);
      && q in d.files && Lookup(d.files, p) == Lookup(c.files, p)
      && (q in c.files ==> At(d, q) == At(c, q))
      && (q !in c.files ==>
            && Some(d.files[q]) == Get(remote, p) && q in d.rows
            && !d.rows[q].isDir && d.rows[q].state.Clean? && d.rows[q].size == |d.files[q]|
            && d.rows[q].remoteMtime == d.rows[q].localMtime == record.remoteMtime)
  {
    SidecarSibling(Parent(p), p, record.remoteMtime);
  }

  /** No resolution touches any other path, whether it succeeds or fails. A failure keeps row and record of the
      path itself, and its file too unless the remote version was to replace it. */
  lemma OthersKept(c: Cache, remote: Remote, p: Path, record: Record, keep: Keep, q: Path)
    requires p != []
    ensures var (d, ok) := Applied(c, remote, p, record, keep);
      && (q != p && !(keep.KeepBoth? && q == Sidecar(p, record.remoteMtime)) ==> At(d, q) == At(c, q))
      && (!ok ==> At(d, p).row == At(c, p).row && At(d, p).conflict == At(c, p).conflict)
      && (!ok && !keep.KeepRemote? ==> At(d, p).file == At(c, p).file)
  {
    SidecarSibling(Parent(p), p, record.remoteMtime);
  }

  /** The fate of the saved copy in the cycle that uploads the local version. The pull of that cycle takes the
      clean row of the copy for a file that was deleted remotely: the copy, and with it the remote version, is
      gone, unless the remote has a file of that name that is not newer, or no such directory. */
  lemma KeptCopyLives(s: State, p: Path, record: Record)
    requires p != [] && Applied(s.cache, s.remote, p, record, KeepBoth).1
    requires Sidecar(p, record.remoteMtime) !in s.cache.files
    ensures var q, u := Sidecar(p, record.remoteMtime),
        Cycle(s.(cache := Applied(s.cache, s.remote, p, record, KeepBoth).0));
      At(u.cache, q).file == Get(s.remote, p) <==>
        if q in u.remote.nodes then u.remote.nodes[q].mtime <= record.remoteMtime
        else !IsDirectory(u.remote, Parent(p))
  {
    var q, t := Sidecar(p, record.remoteMtime), s.(cache := Applied(s.cache, s.remote, p, record, KeepBoth).0);
    SidecarSibling(Parent(p), p, record.remoteMtime);
    BothKept(s.cache, s.remote, p, record);
    UploadAllPlace(t, q);
    PullAllCell(ProcessOps(UploadAll(t)), q);
    assert At(UploadAll(t).cache, q) == At(t.cache, q);
    assert Parent(q) == Parent(p);
  }

  /** What is kept locally: the local bytes reach the remote by the next cycle if the remote has not moved past
      the row, which has recorded the remote time of the conflict, and by the second one in any case; both
      exactly if they are there, can be transferred, and are not deleted after their upload. */
  lemma KeptLocalUploads(s: State, p: Path, record: Record, n: nat)
    requires p != [] && p in s.cache.rows && !s.cache.rows[p].isDir && n >= 2
    ensures var t := s.(cache := Applied(s.cache, s.remote, p, record, KeepLocal).0);
      && IsDirtyFile(t.cache, p) && At(t.cache, p).file == At(s.cache, p).file
      && (Settled(At(t.cache, p), Spot(Cycle(t), p)) <==>
            && Usable(s, p) && !Moved(Lookup(s.remote.nodes, p), s.cache.rows[p])
            && !SomeDeletes(Batch(s.ops), p))
      && (Settled(At(t.cache, p), Spot(Cycles(t, n), p)) <==> Usable(s, p) && Undeleted(t, p, n))
  {
    var t := s.(cache := Applied(s.cache, s.remote, p, record, KeepLocal).0);
    OneCycleEnough(t, p);
    SettledExactly(t, p, n);
  }

  /** Taking the remote version overwrites the local file before the download is known to succeed. The
      local bytes are gone exactly when the row exists and the download fails or brings other bytes. */
  lemma LocalBytesLost(c: Cache, remote: Remote, p: Path, record: Record)
    requires p != [] && p in c.files
    ensures Lookup(Applied(c, remote, p, record, KeepRemote).0.files, p) != Some(c.files[p])
      <==> p in c.rows && Get(remote, p) != Some(c.files[p])
  {
  }

  /** Taking the remote version does not refresh the size column. */
  lemma SizeAfterKeepRemote(c: Cache, remote: Remote, p: Path, record: Record)
    requires p != [] && Applied(c, remote, p, record, KeepRemote).1
    ensures var d := Applied(c, remote, p, record, KeepRemote).0;
      p in d.rows && p in d.files && (d.rows[p].size == |d.files[p]| <==> c.rows[p].size == |remote.nodes[p].content|)
  {
  }

  // ---------- Single writes ----------

  /** A script of writes in progress, named after its next write. */
  datatype Script =
    | AddRecord(path: Path, record: Record, copy: Option<(Path, Entry)>, entry: Entry)
    | SaveCopy(path: Path, copyPath: Path, copyEntry: Entry, entry: Entry)
    | MarkRow(path: Path, entry: Entry)
    | CopyFirst(copyPath: Path, copyEntry: Entry, path: Path)
    | Requeue(path: Path)
    | Replace(path: Path, entry: Entry)
    | Forget(path: Path)
    | Write(path: Path, entry: Entry)
    | ChangeState(path: Path, state: FileState)
    | Drop(path: Path)
    | Finished

  predicate WellFormed(t: Script) {
    match t
    case AddRecord(_, _, copy, e) => e.state.Conflict? && (copy.Some? ==> copy.value.1.state.Clean?)
    case SaveCopy(_, _, ce, e) => ce.state.Clean? && e.state.Conflict?
    case MarkRow(_, e) => e.state.Conflict?
    case CopyFirst(_, ce, _) => ce.state.Clean?
    case Replace(_, e) => e.state.Clean?
    case Write(_, e) => !e.state.Conflict?
    case ChangeState(_, state) => !state.Conflict?
    case _ => true
  }

  /** The next write of the script. */
  function WriteOf(c: Cache, t: Script): Cache {
    match t
    case AddRecord(p, record, _, _) => c.(conflicts := c.conflicts[p := record])
    case SaveCopy(_, q, ce, _) => c.(rows := c.rows[q := ce])
    case MarkRow(p, e) => c.(rows := c.rows[p := e])
    case CopyFirst(q, ce, _) => c.(rows := c.rows[q := ce])
    case Requeue(p) => if p in c.rows then c.(rows := c.rows[p := c.rows[p].(state := Dirty)]) else c
    case Replace(p, e) => c.(rows := c.rows[p := e])
    case Forget(p) => c.(conflicts := c.conflicts - {p})
    case Write(p, e) => c.(rows := c.rows[p := e])
    case ChangeState(p, state) => if p in c.rows then c.(rows := c.rows[p := c.rows[p].(state := state)]) else c
    case Drop(p) => c.(rows := c.rows - {p})
    case Finished => c
  }

  function RestOf(c: Cache, t: Script): Script {
    match t
    case AddRecord(p, _, copy, e) => if copy.Some? then SaveCopy(p, copy.value.0, copy.value.1, e) else MarkRow(p, e)
    case SaveCopy(p, _, _, e) => MarkRow(p, e)
    case CopyFirst(_, _, p) => Requeue(p)
    case Requeue(p) => if p in c.rows then Forget(p) else Finished
    case Replace(p, _) => Forget(p)
    case _ => Finished
  }

  function RunAlone(c: Cache, t: Script): Cache
    decreases match t case AddRecord(_, _, _, _) => 4 case SaveCopy(_, _, _, _) => 3 case CopyFirst(_, _, _) => 3
      case Requeue(_) => 2 case Replace(_, _) => 2 case Finished => 0 case _ => 1
  {
    if t.Finished? then c else RunAlone(WriteOf(c, t), RestOf(c, t))
  }

  /** The script of the resolver under strategy manual or both. */
  function MarkScript(remote: Remote, strategy: Strategy, p: Path, e: Entry, node: Node): Script
    requires p != []
  {
    AddRecord(p, Record(e.localMtime, node.mtime),
              if strategy.Both? && Get(remote, p).Some? then Some((Sidecar(p, node.mtime), SidecarEntry(node)))
                  else None,
              ConflictEntry(e, node))
  }

  /** Run alone, the scripts write the rows and records of the resolver. */
  lemma MarkScriptIsResolve(c: Cache, remote: Remote, strategy: Strategy, p: Path, e: Entry, node: Node)
    requires p != [] && (strategy.Both? || strategy.Manual?)
    ensures var d, r := RunAlone(c, MarkScript(remote, strategy, p, e, node)), Resolve(c, strategy, remote, p, e, node);
      d.rows == r.rows && d.conflicts == r.conflicts
  {
    var t := MarkScript(remote, strategy, p, e, node);
    var c1, t1 := WriteOf(c, t), RestOf(c, t);
    var c2, t2 := WriteOf(c1, t1), RestOf(c1, t1);
    assert RunAlone(c, t) == RunAlone(c1, t1) == RunAlone(c2, t2);
  }

  /** A script of a single write writes its row, its state, or removes its row, and touches no other path and no
      record. */
  lemma SingleWrites(c: Cache, p: Path, e: Entry, state: FileState, q: Path)
    ensures RunAlone(c, Write(p, e)) == c.(rows := RunAlone(c, Write(p, e)).rows)
    ensures Lookup(RunAlone(c, Write(p, e)).rows, q) == if q == p then Some(e) else Lookup(c.rows, q)
    ensures RunAlone(c, Drop(p)) == c.(rows := RunAlone(c, Drop(p)).rows)
    ensures Lookup(RunAlone(c, Drop(p)).rows, q) == if q == p then None else Lookup(c.rows, q)
    ensures RunAlone(c, ChangeState(p, state)) == c.(rows := RunAlone(c, ChangeState(p, state)).rows)
    ensures Lookup(RunAlone(c, ChangeState(p, state)).rows, q)
         == if q == p && p in c.rows then Some(c.rows[p].(state := state)) else Lookup(c.rows, q)
  {
    WriteOnly(c, Write(p, e));
    WriteOnly(c, Drop(p));
    WriteOnly(c, ChangeState(p, state));
  }

  lemma WriteOnly(c: Cache, t: Script)
    requires t.Write? || t.Drop? || t.ChangeState?
    ensures RunAlone(c, t) == WriteOf(c, t)
  {
    assert RunAlone(c, t) == RunAlone(WriteOf(c, t), Finished);
  }

  function ResolveScript(c: Cache, remote: Remote, p: Path, record: Record, keep: Keep): Script
    requires p != []
  {
    match keep
    case KeepLocal => Requeue(p)
    case KeepRemote =>
      if p !in c.rows || Get(remote, p).None? then Finished
      else Replace(p, c.rows[p].(state := Clean, remoteMtime := record.remoteMtime, localMtime := record.remoteMtime,
          syncError := false))
    case KeepBoth =>
      var q := Sidecar(p, record.remoteMtime);
      if q in c.files then Requeue(p)
      else if Get(remote, p).None? then Finished
      else CopyFirst(q, SavedEntry(record, Get(remote, p).value), p)
  }

  lemma RequeueAlone(c: Cache, p: Path)
    ensures RunAlone(c, Requeue(p)) == if p in c.rows then Released(c, p) else c
  {
    var d := WriteOf(c, Requeue(p));
    assert RunAlone(c, Requeue(p)) == RunAlone(d, RestOf(c, Requeue(p)));
    assert RunAlone(d, Forget(p)) == RunAlone(WriteOf(d, Forget(p)), Finished);
  }

  lemma ReplaceAlone(c: Cache, p: Path, e: Entry)
    ensures RunAlone(c, Replace(p, e)) == c.(rows := c.rows[p := e], conflicts := c.conflicts - {p})
  {
    var d := WriteOf(c, Replace(p, e));
    assert RunAlone(c, Replace(p, e)) == RunAlone(d, Forget(p));
    assert RunAlone(d, Forget(p)) == RunAlone(WriteOf(d, Forget(p)), Finished);
  }

  /** Run alone, the scripts write the rows and records of the resolution. */
  lemma ResolveScriptIsApplied(c: Cache, remote: Remote, p: Path, record: Record, keep: Keep)
    requires p != []
    ensures var d, r := RunAlone(c, ResolveScript(c, remote, p, record, keep)), Applied(c, remote, p, record, keep).0;
      d.rows == r.rows && d.conflicts == r.conflicts
  {
    match ResolveScript(c, remote, p, record, keep)
    case Requeue(_) => RequeueAlone(c, p);
    case Replace(_, e) => ReplaceAlone(c, p, e);
    case CopyFirst(q, e, _) => RequeueAlone(c.(rows := c.rows[q := e]), p);
    case _ =>
  }

  // ---------- Interleavings ----------

  /** Every row in conflict has its record; a path has at most one. */
  predicate Booked(c: Cache) {
    forall p | p in c.rows && c.rows[p].state.Conflict? :: p in c.conflicts
  }

  datatype System = System(cache: Cache, scripts: map<nat, Script>)

  datatype Act = Begin(actor: nat, script: Script) | Do(actor: nat)

  /** A change of mode or times reads a row in conflict and later writes it back: it begins with MarkRow. */
  predicate CanAct(s: System, a: Act) {
    match a
    case Begin(i, t) =>
      && i !in s.scripts && WellFormed(t) && !t.SaveCopy? && !t.Forget?
      && (t.MarkRow? ==> t.path in s.cache.rows && s.cache.rows[t.path].state.Conflict?)
    case Do(i) => i in s.scripts && !s.scripts[i].Finished?
  }

  function Acted(s: System, a: Act): System
    requires CanAct(s, a)
  {
    match a
    case Begin(i, t) => s.(scripts := s.scripts[i := t])
    case Do(i) => System(WriteOf(s.cache, s.scripts[i]), s.scripts[i := RestOf(s.cache, s.scripts[i])])
  }

  predicate SoundScripts(s: System) {
    forall i | i in s.scripts :: WellFormed(s.scripts[i])
  }

  /** The write marks a row without a record, or removes the record of a row in conflict. */
  predicate Unbooks(c: Cache, t: Script) {
    || (t.MarkRow? && t.path !in c.conflicts)
    || (t.Forget? && t.path in c.rows && c.rows[t.path].state.Conflict? && t.path in c.conflicts)
  }

  lemma WriteBooked(c: Cache, t: Script)
    requires Booked(c) && WellFormed(t)
    ensures Booked(WriteOf(c, t)) <==> !Unbooks(c, t)
  {
  }

  ghost predicate IsTrace(s: System, acts: seq<Act>)
    decreases |acts|
  {
    acts == [] || (CanAct(s, acts[0]) && IsTrace(Acted(s, acts[0]), acts[1..]))
  }

  ghost predicate BookedThroughout(s: System, acts: seq<Act>)
    requires IsTrace(s, acts)
    decreases |acts|
  {
    Booked(s.cache) && (acts != [] ==> BookedThroughout(Acted(s, acts[0]), acts[1..]))
  }

  ghost predicate NothingUnbooks(s: System, acts: seq<Act>)
    requires IsTrace(s, acts)
    decreases |acts|
  {
    acts != [] ==>
      && (acts[0].Do? ==> !Unbooks(s.cache, s.scripts[acts[0].actor]))
      && NothingUnbooks(Acted(s, acts[0]), acts[1..])
  }

  /** At every write boundary of every interleaving all conflicts are booked, if and only if no row was
      marked without its record and no record was removed under a row in conflict. */
  lemma {:induction false} BookedExactly(s: System, acts: seq<Act>)
    requires IsTrace(s, acts) && Booked(s.cache) && SoundScripts(s)
    ensures BookedThroughout(s, acts) <==> NothingUnbooks(s, acts)
    decreases |acts|
  {
    if acts != [] {
      var t := Acted(s, acts[0]);
      if acts[0].Do? {
        WriteBooked(s.cache, s.scripts[acts[0].actor]);
      }
      if Booked(t.cache) {
        BookedExactly(t, acts[1..]);
      }
    }
  }

  /** The script will still mark the row or remove the record of `p`. */
  predicate WillBook(t: Script, p: Path) {
    && (t.AddRecord? || t.SaveCopy? || t.MarkRow? || t.CopyFirst? || t.Requeue? || t.Replace? || t.Forget?)
    && t.path == p
  }

  /** Nobody else works on the conflict of a path while somebody does. */
  predicate OneAtATime(s: System) {
    forall i, j | i in s.scripts && j in s.scripts && i != j && !s.scripts[i].Finished? ::
      !(WillBook(s.scripts[i], s.scripts[i].path) && WillBook(s.scripts[j], s.scripts[i].path))
  }

  /** What a script has already achieved. */
  predicate Prepared(c: Cache, t: Script) {
    && (t.SaveCopy? || t.MarkRow? ==> t.path in c.conflicts)
    && (t.Forget? ==> t.path in c.rows ==> !c.rows[t.path].state.Conflict?)
  }

  predicate AllPrepared(s: System) {
    forall i | i in s.scripts :: Prepared(s.cache, s.scripts[i])
  }

  lemma PreparedKept(s: System, a: Act, i: nat)
    requires CanAct(s, a) && Booked(s.cache) && SoundScripts(s) && AllPrepared(s) && OneAtATime(s)
    requires i in Acted(s, a).scripts
    ensures Prepared(Acted(s, a).cache, Acted(s, a).scripts[i])
  {
  }

  ghost predicate Serial(s: System, acts: seq<Act>)
    requires IsTrace(s, acts)
    decreases |acts|
  {
    OneAtATime(s) && (acts != [] ==> Serial(Acted(s, acts[0]), acts[1..]))
  }

  /** Conflict bookkeeping: local writes, deletes, uploads, pulls, resolver and command line may
      interleave at will, as long as no two of them work on the conflict of the same path. */
  lemma {:induction false} SerialBooked(s: System, acts: seq<Act>)
    requires IsTrace(s, acts) && Serial(s, acts) && Booked(s.cache) && SoundScripts(s) && AllPrepared(s)
    ensures BookedThroughout(s, acts)
    decreases |acts|
  {
    if acts != [] {
      var t := Acted(s, acts[0]);
      forall i | i in t.scripts ensures Prepared(t.cache, t.scripts[i]) {
        PreparedKept(s, acts[0], i);
      }
      if acts[0].Do? {
        assert Prepared(s.cache, s.scripts[acts[0].actor]);
        WriteBooked(s.cache, s.scripts[acts[0].actor]);
      }
      SerialBooked(t, acts[1..]);
    }
  }

  /** `rvfs resolve --keep local` requeues the file; before it removes the record, the engine finds the
      file dirty with a newer remote and marks it again. The row in conflict is left without a record. */
  lemma ResolveRace(p: Path, e: Entry, record: Record) returns (acts: seq<Act>)
    requires e.state.Conflict?
    ensures var s := System(Cache(map[p := e], map[], map[p := record]), map[]);
      IsTrace(s, acts) && Booked(s.cache) && !BookedThroughout(s, acts)
  {
    var s := System(Cache(map[p := e], map[], map[p := record]), map[]);
    var s1 := Acted(s, Begin(0, Requeue(p)));
    var s2 := Acted(s1, Do(0));
    assert s2.scripts == map[0 := Forget(p)];
    var rest := RemarkedThenForgotten(s2, p, e, record);
    UnbookedLater(s1, Do(0), rest);
    UnbookedLater(s, Begin(0, Requeue(p)), [Do(0)] + rest);
    acts := [Begin(0, Requeue(p))] + ([Do(0)] + rest);
  }

  lemma RemarkedThenForgotten(s: System, p: Path, e: Entry, record: Record) returns (acts: seq<Act>)
    requires s.scripts == map[0 := Forget(p)] && e.state.Conflict?
    ensures IsTrace(s, acts) && !BookedThroughout(s, acts)
  {
    var mark := AddRecord(p, record, None, e);
    var s1 := Acted(s, Begin(1, mark));
    var s2 := Acted(s1, Do(1));
    var s3 := Acted(s2, Do(1));
    var s4 := Acted(s3, Do(0));
    assert s3.scripts[0] == Forget(p) && s3.cache.rows[p] == e;
    assert p in s4.cache.rows && s4.cache.rows[p] == e && p !in s4.cache.conflicts;
    assert IsTrace(s4, []) && !BookedThroughout(s4, []);
    UnbookedLater(s3, Do(0), []);
    UnbookedLater(s2, Do(1), [Do(0)] + []);
    UnbookedLater(s1, Do(1), [Do(1)] + ([Do(0)] + []));
    UnbookedLater(s, Begin(1, mark), [Do(1)] + ([Do(1)] + ([Do(0)] + [])));
    acts := [Begin(1, mark)] + ([Do(1)] + ([Do(1)] + ([Do(0)] + [])));
  }

  lemma UnbookedLater(s: System, a: Act, rest: seq<Act>)
    requires CanAct(s, a) && IsTrace(Acted(s, a), rest) && !BookedThroughout(Acted(s, a), rest)
    ensures IsTrace(s, [a] + rest) && !BookedThroughout(s, [a] + rest)
  {
    assert ([a] + rest)[1..] == rest;
  }
}
