/** What any number of cycles makes of a local edit, path by path and exactly: when the remote has its bytes,
    when an older delete takes it away again, and from when on nothing changes any more. */
module SyncConvergence {
  import opened Basics
  import opened Paths
  import opened Sync
  import opened SyncPull
  import opened SyncCycle
  import opened SyncTurns

  // ---------- A cycle, path by path ----------

  ghost predicate InDirectory(remote: Remote, p: Path) {
    p != [] && IsDirectory(remote, Parent(p))
  }

  lemma FetchIsPulledCell(remote: Remote, p: Path, cell: Cell)
    ensures PulledCell(LocalWins, remote, p, cell)
        == Fetch(InDirectory(remote, p), Place(cell, Lookup(remote.nodes, p)))
  {
  }

  ghost function Spot(s: State, p: Path): Place {
    PlaceOf(s.cache, s.remote, p)
  }

  /** The remote tree when the pull of the cycle begins; the pull leaves it alone. */
  lemma CycleRemote(s: State, p: Path)
    ensures Cycle(s).remote == RunOps(UploadAll(s).remote, Batch(s.ops))
    ensures Cycle(s).remote.broken == s.remote.broken && Cycle(s).ops == Later(s.ops)
    ensures Lookup(Cycle(s).remote.nodes, p) ==
      if SomeDeletes(Batch(s.ops), p) then None else Upload(p in s.remote.broken, Spot(s, p)).node
  {
    UploadAllPlace(s, p);
    RunOpsEffect(UploadAll(s).remote, Batch(s.ops), p);
  }

  lemma CycleTurn(s: State, p: Path)
    ensures Spot(Cycle(s), p) ==
      Turn(p in s.remote.broken, SomeDeletes(Batch(s.ops), p), InDirectory(Cycle(s).remote, p), Spot(s, p))
  {
    CycleRemote(s, p);
    UploadAllPlace(s, p);
    var t := ProcessOps(UploadAll(s));
    PullAllCell(t, p);
    FetchIsPulledCell(t.remote, p, At(t.cache, p));
  }

  // ---------- Queues ----------

  /** What is left of a queue after n cycles. */
  function Left(ops: seq<Op>, n: nat): seq<Op> {
    if OPS_PER_CYCLE * n <= |ops| then ops[OPS_PER_CYCLE * n..] else []
  }

  lemma LeftLater(ops: seq<Op>, n: nat)
    ensures Left(ops, 0) == ops && Left(ops, n + 1) == Later(Left(ops, n))
  {
  }

  lemma LeftShrinks(ops: seq<Op>, k: nat, n: nat, op: Op)
    requires k <= n && op in Left(ops, n)
    ensures op in Left(ops, k)
  {
    assert Left(ops, n) == Left(ops, k)[OPS_PER_CYCLE * (n - k)..];
  }

  /** A later batch deletes no more than all that was left. */
  lemma DoomedLater(ops: seq<Op>, k: nat, n: nat, remote: Remote)
    requires k <= n
    ensures Doomed(Batch(Left(ops, n)), remote) <= Doomed(Left(ops, k), remote)
  {
    forall p | p in Doomed(Batch(Left(ops, n)), remote) ensures p in Doomed(Left(ops, k), remote) {
      var op :| op in Batch(Left(ops, n)) && Deletes(op, p);
      LeftShrinks(ops, k, n, op);
    }
  }

  /** Every operation left in the queue has its turn in some later cycle. */
  lemma {:induction false} TurnOf(ops: seq<Op>, k: nat, op: Op) returns (n: nat)
    requires op in Left(ops, k)
    ensures n >= k && op in Batch(Left(ops, n))
    decreases |Left(ops, k)|
  {
    if op in Batch(Left(ops, k)) {
      n := k;
    } else {
      LeftLater(ops, k);
      assert Left(ops, k) == Batch(Left(ops, k)) + Later(Left(ops, k));
      n := TurnOf(ops, k + 1, op);
    }
  }

  // ---------- Runs of cycles ----------

  /** The state after a cycle is a turn at every path, and the queue has lost its batch. */
  ghost predicate IsStep(u: State, v: State) {
    (forall p :: IsTurn(u, v, p)) && v.ops == Later(u.ops) && v.remote.broken == u.remote.broken
  }

  ghost predicate IsTurn(u: State, v: State, p: Path) {
    Spot(v, p) == Turn(p in u.remote.broken, SomeDeletes(Batch(u.ops), p), InDirectory(v.remote, p), Spot(u, p))
  }

  lemma CycleIsStep(u: State)
    ensures IsStep(u, Cycle(u))
  {
    CycleRemote(u, []);
    forall p ensures IsTurn(u, Cycle(u), p) {
      CycleTurn(u, p);
    }
  }

  /** The cycle, known by its turns; `StepIsCycle` says that it is no other function. */
  ghost function StepOf(u: State): (v: State)
    ensures IsStep(u, v)
  {
    CycleIsStep(u);
    var v :| IsStep(u, v);
    v
  }

  lemma StepIsCycle(u: State)
    ensures StepOf(u) == Cycle(u)
  {
    CycleIsStep(u);
    SameStep(u, StepOf(u), Cycle(u));
  }

  lemma TurnNode(broken: bool, deleted: bool, one: bool, two: bool, place: Place)
    ensures Turn(broken, deleted, one, place).node == Turn(broken, deleted, two, place).node
  {
  }

  lemma SameStep(u: State, v: State, w: State)
    requires IsStep(u, v) && IsStep(u, w)
    ensures v == w
  {
    forall p ensures Lookup(v.remote.nodes, p) == Lookup(w.remote.nodes, p) {
      assert IsTurn(u, v, p) && IsTurn(u, w, p);
      TurnNode(p in u.remote.broken, SomeDeletes(Batch(u.ops), p), InDirectory(v.remote, p),
          InDirectory(w.remote, p), Spot(u, p));
    }
    SameMaps(v.remote.nodes, w.remote.nodes);
    assert v.remote == w.remote;
    forall p ensures At(v.cache, p) == At(w.cache, p) {
      assert IsTurn(u, v, p) && IsTurn(u, w, p);
      assert Spot(v, p).cell == At(v.cache, p) && Spot(w, p).cell == At(w.cache, p);
    }
    SameCells(v.cache, w.cache);
  }

  ghost function Cycles(s: State, n: nat): State {
    if n == 0 then s else StepOf(Cycles(s, n - 1))
  }

  /** One cycle of the engine, whatever the order of its listings, without failures. */
  ghost predicate EngineStep(s: State, t: State) {
    exists dirty, fails, listings ::
      && AllDirty(s.cache, dirty) && NoneFails(fails)
      && WellListed(ServeOps(Uploaded(s, LocalWins, dirty), fails).remote, listings)
      && t == EngineCycle(s, LocalWins, dirty, fails, listings)
  }

  ghost predicate IsRun(step: (State, State) -> bool, s: State, t: State, n: nat)
    decreases n
  {
    if n == 0 then t == s else exists u :: IsRun(step, s, u, n - 1) && step(u, t)
  }

  lemma EngineStepIsCycle(s: State, t: State)
    requires EngineStep(s, t)
    ensures t == StepOf(s)
  {
    var dirty, fails, listings :|
      && AllDirty(s.cache, dirty) && NoneFails(fails)
      && WellListed(ServeOps(Uploaded(s, LocalWins, dirty), fails).remote, listings)
      && t == EngineCycle(s, LocalWins, dirty, fails, listings);
    CycleIsPointwise(s, dirty, fails, listings);
    StepIsCycle(s);
  }

  lemma {:induction false} RunIsCycles(step: (State, State) -> bool, s: State, t: State, n: nat)
    requires IsRun(step, s, t, n) && forall u, v | step(u, v) :: v == StepOf(u)
    ensures t == Cycles(s, n)
    decreases n
  {
    if n > 0 {
      var u :| IsRun(step, s, u, n - 1) && step(u, t);
      RunIsCycles(step, s, u, n - 1);
    }
  }

  /** However the engine lists, n cycles end in the same state. */
  lemma EngineRunIsCycles(s: State, t: State, n: nat)
    requires IsRun(EngineStep, s, t, n)
    ensures t == Cycles(s, n)
  {
    forall u, v | EngineStep(u, v) ensures v == StepOf(u) {
      EngineStepIsCycle(u, v);
    }
    RunIsCycles(EngineStep, s, t, n);
  }

  lemma {:induction false} CyclesQueue(s: State, n: nat)
    ensures Cycles(s, n).ops == Left(s.ops, n) && Cycles(s, n).remote.broken == s.remote.broken
  {
    LeftLater(s.ops, 0);
    if n > 0 {
      CyclesQueue(s, n - 1);
      LeftLater(s.ops, n - 1);
    }
  }

  /** Whether the n-th batch of the queue deletes `p`. */
  ghost function Batches(s: State, p: Path): nat -> bool {
    (n: nat) => SomeDeletes(Batch(Left(s.ops, n)), p)
  }

  /** Whether the parent of `p` is a remote directory after n cycles. */
  ghost function Directories(s: State, p: Path): nat -> bool {
    (n: nat) => InDirectory(Cycles(s, n).remote, p)
  }

  /** One more cycle, seen from one path. */
  lemma NextTurn(s: State, n: nat, p: Path)
    ensures Spot(Cycles(s, n + 1), p) ==
      Turn(p in s.remote.broken, Batches(s, p)(n), Directories(s, p)(n + 1), Spot(Cycles(s, n), p))
  {
    var u := Cycles(s, n);
    CyclesQueue(s, n);
    assert Cycles(s, n + 1) == StepOf(u);
    assert IsTurn(u, StepOf(u), p);
  }

  ghost function Spots(s: State, p: Path): nat -> Place {
    (n: nat) => Spot(Cycles(s, n), p)
  }

  /** All cycles, seen from one path. */
  lemma CyclesAreTurns(s: State, n: nat, p: Path)
    ensures Spot(Cycles(s, n), p) == Turns(p in s.remote.broken, Batches(s, p), Directories(s, p), Spot(s, p), n)
  {
    var places := Spots(s, p);
    assert AreTurns(p in s.remote.broken, Batches(s, p), Directories(s, p), places) by {
      forall k: nat {:trigger places(k + 1)}
        ensures places(k + 1) == Turn(p in s.remote.broken, Batches(s, p)(k), Directories(s, p)(k + 1), places(k))
      {
        NextTurn(s, k, p);
      }
    }
    TurnsOf(p in s.remote.broken, Batches(s, p), Directories(s, p), places, n);
    assert places(0) == Spot(s, p) && places(n) == Spot(Cycles(s, n), p);
  }

  // ---------- When an edit arrives, exactly ----------

  predicate IsMoved(s: State, p: Path)
    requires IsDirtyFile(s.cache, p)
  {
    Moved(Lookup(s.remote.nodes, p), s.cache.rows[p])
  }

  /** The edit can be uploaded: its bytes are cached and its transfer succeeds. */
  predicate Usable(s: State, p: Path) {
    p in s.cache.files && p !in s.remote.broken
  }

  /** No batch of the first n cycles deletes the edit after its upload. */
  ghost predicate Undeleted(s: State, p: Path, n: nat)
    requires IsDirtyFile(s.cache, p)
  {
    Spared(IsMoved(s, p), Batches(s, p), n)
  }

  /** Convergence, exactly and for every dirty file on its own, whatever the other files, the remote tree and
      the queue are: after n cycles, n at least 2, it is clean with its bytes on the remote, if and only if
      its bytes are cached, its transfer succeeds, and no delete took it away after its upload. */
  lemma SettledExactly(s: State, p: Path, n: nat)
    requires IsDirtyFile(s.cache, p) && n >= 2
    ensures Settled(At(s.cache, p), Spot(Cycles(s, n), p)) <==> Usable(s, p) && Undeleted(s, p, n)
  {
    CyclesAreTurns(s, n, p);
    if p in s.remote.broken {
      BrokenTurns(Batches(s, p), Directories(s, p), Spot(s, p), n);
    } else if p in s.cache.files {
      SettledOrLost(Batches(s, p), Directories(s, p), Spot(s, p), n);
    }
  }

  // ---------- Transfers that fail for a while ----------

  ghost function Failing(s: State, broken: set<Path>): State {
    s.(remote := s.remote.(broken := broken))
  }

  /** n cycles, with the files whose transfer fails given for each cycle. */
  ghost function FaultyCycles(s: State, breaks: nat -> set<Path>, n: nat): State {
    if n == 0 then s else StepOf(Failing(FaultyCycles(s, breaks, n - 1), breaks(n - 1)))
  }

  lemma {:induction false} FaultyQueue(s: State, breaks: nat -> set<Path>, n: nat)
    ensures FaultyCycles(s, breaks, n).ops == Left(s.ops, n)
  {
    LeftLater(s.ops, 0);
    if n > 0 {
      FaultyQueue(s, breaks, n - 1);
      LeftLater(s.ops, n - 1);
    }
  }

  ghost function FaultySpots(s: State, breaks: nat -> set<Path>, p: Path): nat -> Place {
    (n: nat) => Spot(FaultyCycles(s, breaks, n), p)
  }

  ghost function FaultyDirectories(s: State, breaks: nat -> set<Path>, p: Path): nat -> bool {
    (n: nat) => InDirectory(FaultyCycles(s, breaks, n).remote, p)
  }

  lemma FaultyTurn(s: State, breaks: nat -> set<Path>, n: nat, p: Path)
    ensures FaultySpots(s, breaks, p)(n + 1) ==
      Turn(p in breaks(n), Batches(s, p)(n), FaultyDirectories(s, breaks, p)(n + 1), FaultySpots(s, breaks, p)(n))
  {
    var u := Failing(FaultyCycles(s, breaks, n), breaks(n));
    FaultyQueue(s, breaks, n);
    assert FaultyCycles(s, breaks, n + 1) == StepOf(u);
    assert IsTurn(u, StepOf(u), p) && Spot(u, p) == Spot(FaultyCycles(s, breaks, n), p);
  }

  /** A dirty file whose transfer fails in each of the first m cycles is the same dirty file then. */
  lemma FailuresKeep(s: State, breaks: nat -> set<Path>, p: Path, m: nat)
    requires IsDirtyFile(s.cache, p) && forall k: nat | k < m :: p in breaks(k)
    ensures SameEdit(At(s.cache, p), At(FaultyCycles(s, breaks, m).cache, p))
  {
    var places := FaultySpots(s, breaks, p);
    forall k: nat {:trigger places(k + 1)} | k < m
      ensures places(k + 1) == Turn(true, Batches(s, p)(k), FaultyDirectories(s, breaks, p)(k + 1), places(k))
    {
      FaultyTurn(s, breaks, k, p);
    }
    FailedTurns(Batches(s, p), FaultyDirectories(s, breaks, p), places, m);
    assert places(0).cell == At(s.cache, p) && places(m).cell == At(FaultyCycles(s, breaks, m).cache, p);
  }

  /** A file that is dirty after m cycles, and whose transfers do not fail any more, is settled from two cycles
      later on, if and only if its bytes are cached and no batch from the m-th on deletes it after its upload.
      The transfers of other files may go on failing, in any cycle. */
  lemma SettledAfterFailures(s: State, breaks: nat -> set<Path>, p: Path, m: nat, n: nat)
    requires IsDirtyFile(FaultyCycles(s, breaks, m).cache, p) && n >= m + 2
    requires forall k: nat | m <= k :: p !in breaks(k)
    ensures var u := FaultyCycles(s, breaks, m);
      Settled(At(u.cache, p), Spot(FaultyCycles(s, breaks, n), p))
      <==> p in u.cache.files && Spared(IsMoved(u, p), From(Batches(s, p), m), n - m)
  {
    var u, places := FaultyCycles(s, breaks, m), FaultySpots(s, breaks, p);
    forall k: nat {:trigger places(k + 1)} | m <= k
      ensures places(k + 1) == Turn(false, Batches(s, p)(k), FaultyDirectories(s, breaks, p)(k + 1), places(k))
    {
      FaultyTurn(s, breaks, k, p);
    }
    assert places(m) == Spot(u, p) && places(n) == Spot(FaultyCycles(s, breaks, n), p);
    if p in u.cache.files {
      SettledOrLostFrom(Batches(s, p), FaultyDirectories(s, breaks, p), places, m, n);
    }
  }

  /** One cycle is enough for a dirty file exactly when it can be uploaded at once and is not deleted. */
  lemma OneCycleEnough(s: State, p: Path)
    requires IsDirtyFile(s.cache, p)
    ensures Settled(At(s.cache, p), Spot(Cycle(s), p))
       <==> Usable(s, p) && !IsMoved(s, p) && !SomeDeletes(Batch(s.ops), p)
  {
    CycleTurn(s, p);
    var deleted, inDir := SomeDeletes(Batch(s.ops), p), InDirectory(Cycle(s).remote, p);
    if p in s.remote.broken {
      BrokenTurn(deleted, inDir, Spot(s, p));
    } else if p in s.cache.files {
      FirstTurn(deleted, inDir, Spot(s, p));
    }
  }

  /** The pull of one of the first n cycles has listed the directory of the edit after it was lost. */
  ghost predicate Dropped(s: State, p: Path, n: nat)
    requires IsDirtyFile(s.cache, p)
  {
    Missed(IsMoved(s, p), Batches(s, p), Directories(s, p), n)
  }

  /** Uploads run before pending operations. A file that was deleted and created again before the cycle is
      uploaded and then deleted by the older operation, in that cycle or in a later one whose batch holds it.
      From the second cycle on the remote lacks it exactly if that has happened; and the only local copy is
      gone as well exactly if the pull of such a cycle, or of a later one, lists its directory. */
  lemma UploadThenDelete(s: State, p: Path, n: nat)
    requires IsDirtyFile(s.cache, p) && Usable(s, p) && n >= 1
    ensures p !in Cycles(s, n).remote.nodes <==> if n == 1 then SomeDeletes(Batch(s.ops), p) else !Undeleted(s, p, n)
    ensures p !in Cycles(s, n).cache.files <==> Dropped(s, p, n)
    ensures p !in Cycles(s, n).cache.rows <==> Dropped(s, p, n)
  {
    var place := Spot(Cycles(s, n), p);
    assert place.node == Lookup(Cycles(s, n).remote.nodes, p) && place.cell == At(Cycles(s, n).cache, p);
    CyclesAreTurns(s, n, p);
    LostTurns(Batches(s, p), Directories(s, p), Spot(s, p), n);
    LeftLater(s.ops, 0);
  }

  // ---------- Dirty files that are left ----------

  /** The place of an edit that cannot be uploaded, and is dirty or becomes so by the first pull. */
  ghost predicate Unusable(s: State, p: Path) {
    StaysDirty(p in s.remote.broken, SomeDeletes(Batch(s.ops), p), Spot(s, p))
  }

  /** From the second cycle on the dirty files are exactly the edits that cannot be uploaded, because their
      bytes are not cached or their transfer fails: those that were dirty, and those that an interrupted
      upload had left Syncing and the first pull met with a newer remote. */
  lemma DirtyExactly(s: State, p: Path, n: nat)
    requires n >= 2
    ensures IsDirtyFile(Cycles(s, n).cache, p) <==> Unusable(s, p)
  {
    CyclesAreTurns(s, n, p);
    LateTurns(p in s.remote.broken, Batches(s, p), Directories(s, p), Spot(s, p), n);
    LeftLater(s.ops, 0);
    assert DirtyCell(At(Cycles(s, n).cache, p)) <==> IsDirtyFile(Cycles(s, n).cache, p);
  }

  /** Every file that was dirty is clean with its bytes on the remote, and none is dirty now. */
  ghost predicate AllSettled(s: State, t: State) {
    && (forall p | IsDirtyFile(s.cache, p) :: Settled(At(s.cache, p), Spot(t, p)))
    && (forall p :: !IsDirtyFile(t.cache, p))
  }

  /** The law for the whole cache: after two cycles and ever after all is settled, if and only if every dirty
      file can be uploaded and is kept, and so can every Syncing file that the first pull makes dirty. */
  lemma TwoCycleConvergence(s: State, n: nat)
    requires n >= 2
    ensures AllSettled(s, Cycles(s, n)) <==>
      && (forall p | IsDirtyFile(s.cache, p) :: Usable(s, p) && Undeleted(s, p, n))
      && (forall p :: !Unusable(s, p))
    ensures Cycles(s, n).ops == Left(s.ops, n)
  {
    CyclesQueue(s, n);
    forall p | IsDirtyFile(s.cache, p)
      ensures Settled(At(s.cache, p), Spot(Cycles(s, n), p)) <==> Usable(s, p) && Undeleted(s, p, n)
    {
      SettledExactly(s, p, n);
    }
    forall p ensures IsDirtyFile(Cycles(s, n).cache, p) <==> Unusable(s, p) {
      DirtyExactly(s, p, n);
    }
  }

  predicate HasEdit(c: Cache, p: Path) {
    p in c.rows && (c.rows[p].state.Dirty? || c.rows[p].state.Syncing?) && !c.rows[p].isDir
  }

  /** In particular two cycles are enough when every edit can be uploaded and no queued delete names a dirty
      file. */
  lemma UsableEditsSettle(s: State, n: nat)
    requires n >= 2 && forall p | HasEdit(s.cache, p) :: Usable(s, p)
    requires forall p | IsDirtyFile(s.cache, p) :: !SomeDeletes(s.ops, p)
    ensures AllSettled(s, Cycles(s, n))
  {
    forall p | IsDirtyFile(s.cache, p) ensures Usable(s, p) && Undeleted(s, p, n) {
      assert HasEdit(s.cache, p);
      forall k: nat ensures !Batches(s, p)(k) {
        LeftSpares(s.ops, k, p);
      }
    }
    forall p ensures !Unusable(s, p) {
      assert !HasEdit(s.cache, p) || Usable(s, p);
    }
    TwoCycleConvergence(s, n);
  }

  /** What the whole queue spares, every batch spares. */
  lemma LeftSpares(ops: seq<Op>, k: nat, p: Path)
    requires !SomeDeletes(ops, p)
    ensures !SomeDeletes(Batch(Left(ops, k)), p)
  {
    if op :| op in Batch(Left(ops, k)) && Deletes(op, p) {
      LeftLater(ops, 0);
      LeftShrinks(ops, 0, k, op);
    }
  }

  // ---------- When nothing changes any more ----------

  /** The paths on the remote that the operations delete. */
  ghost function Doomed(ops: seq<Op>, remote: Remote): set<Path> {
    set p | p in remote.nodes && SomeDeletes(ops, p)
  }

  /** Rows, files, records and remote nodes, without the queue. */
  function Contents(s: State): (Cache, Remote) {
    (s.cache, s.remote)
  }

  lemma LateSpot(s: State, n: nat, p: Path)
    requires n >= 2
    ensures Late(p in s.remote.broken, Spot(Cycles(s, n), p))
    ensures Fetch(Directories(s, p)(n), Spot(Cycles(s, n), p)) == Spot(Cycles(s, n), p).cell
  {
    CyclesAreTurns(s, n, p);
    LateTurns(p in s.remote.broken, Batches(s, p), Directories(s, p), Spot(s, p), n);
  }

  /** A late cycle takes away the node that it deletes; where it leaves the node, it leaves the rest as well,
      if its pull finds the parent directory as the one before did. */
  lemma LateNext(s: State, n: nat, p: Path)
    requires n >= 2
    ensures var before, after := Spot(Cycles(s, n), p), Spot(Cycles(s, n + 1), p);
      && after.node == (if Batches(s, p)(n) then None else before.node)
      && (Directories(s, p)(n + 1) == Directories(s, p)(n) && after.node == before.node ==> after == before)
  {
    LateSpot(s, n, p);
    NextTurn(s, n, p);
    LateTurn(p in s.remote.broken, Batches(s, p)(n), Directories(s, p)(n + 1), Spot(Cycles(s, n), p));
  }

  lemma LateNode(s: State, n: nat, p: Path)
    requires n >= 2
    ensures Lookup(Cycles(s, n + 1).remote.nodes, p)
         == if Batches(s, p)(n) then None else Lookup(Cycles(s, n).remote.nodes, p)
  {
    LateNext(s, n, p);
    assert Spot(Cycles(s, n), p).node == Lookup(Cycles(s, n).remote.nodes, p);
    assert Spot(Cycles(s, n + 1), p).node == Lookup(Cycles(s, n + 1).remote.nodes, p);
  }

  lemma QuietCell(s: State, n: nat, p: Path)
    requires n >= 2 && Cycles(s, n + 1).remote == Cycles(s, n).remote
    ensures At(Cycles(s, n + 1).cache, p) == At(Cycles(s, n).cache, p)
  {
    var before, after := Spot(Cycles(s, n), p), Spot(Cycles(s, n + 1), p);
    assert Directories(s, p)(n + 1) == Directories(s, p)(n) && after.node == before.node;
    LateNext(s, n, p);
    assert before.cell == At(Cycles(s, n).cache, p) && after.cell == At(Cycles(s, n + 1).cache, p);
  }

  lemma QuietRemote(s: State, n: nat)
    requires n >= 2 && Doomed(Batch(Left(s.ops, n)), Cycles(s, n).remote) == {}
    ensures Cycles(s, n + 1).remote == Cycles(s, n).remote
  {
    var t, u := Cycles(s, n), Cycles(s, n + 1);
    forall p ensures Lookup(u.remote.nodes, p) == Lookup(t.remote.nodes, p) {
      LateNode(s, n, p);
      assert p !in Doomed(Batch(Left(s.ops, n)), t.remote);
    }
    CyclesQueue(s, n);
    CyclesQueue(s, n + 1);
    SameMaps(u.remote.nodes, t.remote.nodes);
  }

  /** From the second cycle on, a cycle changes nothing if and only if the ten operations that it takes delete
      nothing that is on the remote. */
  lemma QuietCycle(s: State, n: nat)
    requires n >= 2
    ensures Contents(Cycles(s, n + 1)) == Contents(Cycles(s, n))
        <==> Doomed(Batch(Left(s.ops, n)), Cycles(s, n).remote) == {}
  {
    var t, u := Cycles(s, n), Cycles(s, n + 1);
    if Doomed(Batch(Left(s.ops, n)), t.remote) == {} {
      QuietRemote(s, n);
      forall p ensures At(u.cache, p) == At(t.cache, p) {
        QuietCell(s, n, p);
      }
      SameCells(u.cache, t.cache);
    } else {
      var p :| p in Doomed(Batch(Left(s.ops, n)), t.remote);
      LateNode(s, n, p);
    }
  }

  /** What the k-th cycle left, every later cycle leaves, if the rest of the queue deletes nothing there. */
  lemma QuietLater(s: State, k: nat, n: nat)
    requires 2 <= k <= n && Doomed(Left(s.ops, k), Cycles(s, n).remote) == {}
    ensures Contents(Cycles(s, n + 1)) == Contents(Cycles(s, n))
  {
    DoomedLater(s.ops, k, n, Cycles(s, n).remote);
    QuietCycle(s, n);
  }

  ghost predicate SameAsAt(s: State, k: nat, n: nat) {
    Contents(Cycles(s, n)) == Contents(Cycles(s, k))
  }

  lemma SameNext(s: State, k: nat, n: nat)
    requires 2 <= k <= n && Doomed(Left(s.ops, k), Cycles(s, k).remote) == {} && SameAsAt(s, k, n)
    ensures SameAsAt(s, k, n + 1)
  {
    var contents := Contents(Cycles(s, k));
    assert contents.1 == Cycles(s, k).remote && Contents(Cycles(s, n)).1 == Cycles(s, n).remote;
    QuietLater(s, k, n);
  }

  lemma {:induction false} SameSince(s: State, k: nat, n: nat)
    requires 2 <= k <= n && Doomed(Left(s.ops, k), Cycles(s, k).remote) == {}
    ensures SameAsAt(s, k, n)
  {
    if n > k {
      SameSince(s, k, n - 1);
      SameNext(s, k, n - 1);
    }
  }

  lemma TurnAgainst(s: State, k: nat, p: Path) returns (n: nat)
    requires SomeDeletes(Left(s.ops, k), p)
    ensures n >= k && Batches(s, p)(n)
  {
    var op :| op in Left(s.ops, k) && Deletes(op, p);
    n := TurnOf(s.ops, k, op);
  }

  /** A delete of something that was there shows when its turn comes, if nothing has changed before. */
  lemma DeleteShows(s: State, k: nat, n: nat, p: Path)
    requires 2 <= k <= n && p in Cycles(s, k).remote.nodes && Batches(s, p)(n)
    ensures !SameAsAt(s, k, n) || !SameAsAt(s, k, n + 1)
  {
    LateNode(s, n, p);
    assert SameAsAt(s, k, n) ==> Cycles(s, n).remote == Cycles(s, k).remote;
    assert SameAsAt(s, k, n + 1) ==> Cycles(s, n + 1).remote == Cycles(s, k).remote;
  }

  lemma ChangesSince(s: State, k: nat, p: Path) returns (n: nat)
    requires k >= 2 && p in Cycles(s, k).remote.nodes && SomeDeletes(Left(s.ops, k), p)
    ensures n >= k && !SameAsAt(s, k, n)
  {
    n := TurnAgainst(s, k, p);
    DeleteShows(s, k, n, p);
    n := if SameAsAt(s, k, n) then n + 1 else n;
  }

  /** From the k-th cycle on, for k from two on, nothing changes any more, if and only if no operation left in
      the queue deletes anything that is on the remote then. So nothing changes once the queue is drained, and
      from two cycles on if the rest of the queue holds puts only. */
  lemma FixedExactly(s: State, k: nat)
    requires k >= 2
    ensures (forall n: nat | n >= k :: SameAsAt(s, k, n))
       <==> Doomed(Left(s.ops, k), Cycles(s, k).remote) == {}
    ensures (forall op | op in Left(s.ops, k) :: op.PutOp?) ==> Doomed(Left(s.ops, k), Cycles(s, k).remote) == {}
  {
    if Doomed(Left(s.ops, k), Cycles(s, k).remote) == {} {
      forall n: nat | n >= k ensures SameAsAt(s, k, n) {
        SameSince(s, k, n);
      }
    } else {
      var p :| p in Doomed(Left(s.ops, k), Cycles(s, k).remote);
      var n := ChangesSince(s, k, p);
    }
  }

  // ---------- The tree ----------

  /** A local edit that the engine can upload: its bytes are cached, it goes into a remote directory, and no
      pending operation is about to delete it. */
  ghost predicate Uploadable(s: State, p: Path) {
    && p != [] && p in s.cache.files && IsDirectory(s.remote, Parent(p))
    && (p in s.remote.nodes ==> !s.remote.nodes[p].isDir)
    && !SomeDeletes(s.ops, p)
  }

  /** A quiet world: a remote tree, transfers that succeed, and edits that can be uploaded. */
  ghost predicate Settling(s: State) {
    && IsTree(s.remote) && s.remote.broken == {}
    && forall p | HasEdit(s.cache, p) :: Uploadable(s, p)
  }

  /** What the whole queue spares, its batch and its rest spare. */
  lemma SparedByParts(ops: seq<Op>, p: Path)
    ensures !SomeDeletes(ops, p) ==> !SomeDeletes(Batch(ops), p) && !SomeDeletes(Later(ops), p)
  {
    assert forall op | op in Batch(ops) :: op in ops;
    assert forall op | op in Later(ops) :: op in ops;
  }

  lemma UploadTree(s: State)
    requires Settling(s)
    ensures IsTree(UploadAll(s).remote)
  {
    var r := UploadAll(s).remote;
    forall p | p in r.nodes ensures p != [] && IsDirectory(r, Parent(p)) {
      UploadedNode(s, p);
      UploadedNode(s, Parent(p));
    }
  }

  /** An upload adds a file to a directory and keeps every directory. */
  lemma UploadedNode(s: State, p: Path)
    requires Settling(s)
    ensures p in UploadAll(s).remote.nodes ==> p != [] && IsDirectory(s.remote, Parent(p))
    ensures IsDirectory(s.remote, p) ==> IsDirectory(UploadAll(s).remote, p)
  {
    UploadAllPlace(s, p);
    assert DirtyCell(At(s.cache, p)) ==> HasEdit(s.cache, p);
    if DirtyCell(At(s.cache, p)) {
      assert Uploadable(s, p);
    } else {
      assert Lookup(UploadAll(s).remote.nodes, p) == Lookup(s.remote.nodes, p);
    }
  }

  lemma CycleDirectory(s: State, p: Path)
    requires Settling(s) && IsDirectory(s.remote, p) && !SomeDeletes(Batch(s.ops), p)
    ensures IsDirectory(Cycle(s).remote, p)
  {
    if p != [] {
      CycleRemote(s, p);
      UploadedNode(s, p);
      UploadAllPlace(s, p);
    }
  }

  lemma EditTurn(deleted: bool, inDir: bool, place: Place)
    requires EditCell(Turn(false, deleted, inDir, place).cell)
    ensures EditCell(place.cell) && (place.cell.file.Some? ==> Turn(false, deleted, inDir, place).cell.file.Some?)
  {
  }

  predicate EditCell(cell: Cell) {
    cell.row.Some? && (cell.row.value.state.Dirty? || cell.row.value.state.Syncing?) && !cell.row.value.isDir
  }

  lemma StillUploadable(s: State, p: Path)
    requires Settling(s) && HasEdit(Cycle(s).cache, p)
    ensures Uploadable(Cycle(s), p)
  {
    var t := Cycle(s);
    CycleTurn(s, p);
    assert EditCell(Spot(t, p).cell);
    EditTurn(SomeDeletes(Batch(s.ops), p), InDirectory(t.remote, p), Spot(s, p));
    assert HasEdit(s.cache, p) && Uploadable(s, p);
    SparedByParts(s.ops, p);
    DeletesBelow(Batch(s.ops), p);
    CycleDirectory(s, Parent(p));
    CycleRemote(s, p);
    assert Spot(t, p).cell.file.Some?;
  }

  /** A quiet world stays quiet, whatever the queue holds. */
  lemma CycleSettling(s: State)
    requires Settling(s)
    ensures Settling(Cycle(s)) && Cycle(s).ops == Later(s.ops)
  {
    UploadTree(s);
    CycleRemote(s, []);
    RunOpsTree(UploadAll(s).remote, Batch(s.ops));
    forall p | HasEdit(Cycle(s).cache, p) ensures Uploadable(Cycle(s), p) {
      StillUploadable(s, p);
    }
  }

  // ---------- Engine runs of a quiet world ----------

  ghost predicate Lists(xs: set<Path>, ys: seq<Path>) {
    (forall p :: p in ys <==> p in xs) && forall i, j | 0 <= i < j < |ys| :: ys[i] != ys[j]
  }

  lemma {:induction false} SomeListing(xs: set<Path>)
    ensures exists ys :: Lists(xs, ys)
  {
    if xs == {} {
      assert Lists(xs, []);
    } else {
      var x :| x in xs;
      SomeListing(xs - {x});
      var ys :| Lists(xs - {x}, ys);
      assert Lists(xs, ys + [x]);
    }
  }

  ghost function Listing(xs: set<Path>): (ys: seq<Path>)
    ensures Lists(xs, ys)
  {
    SomeListing(xs);
    var ys :| Lists(xs, ys);
    ys
  }

  ghost function Children(remote: Remote, dir: Path): set<Path> {
    set p | p in remote.nodes && ChildOf(dir, p)
  }

  lemma SomeListings(remote: Remote) returns (listings: Listings)
    requires IsTree(remote)
    ensures WellListed(remote, listings)
  {
    listings := map dir | dir in remote.nodes.Keys + {[]} :: Listing(Children(remote, dir));
    forall dir | IsDirectory(remote, dir) ensures ListedWell(remote, listings, dir) {
      assert dir in listings && Lists(Children(remote, dir), listings[dir]);
    }
  }

  lemma SomeDirtyListing(s: State) returns (dirty: seq<Path>)
    requires Settling(s)
    ensures AllDirty(s.cache, dirty)
  {
    dirty := Listing(set p | p in s.cache.rows && IsDirtyFile(s.cache, p));
    forall p | p in dirty ensures p in s.cache.rows && p != [] && IsDirtyFile(s.cache, p) {
      assert HasEdit(s.cache, p) && Uploadable(s, p);
    }
  }

  const NO_FAILURES: Outcome := (i: nat, op: Op) => false

  lemma ServedRemote(s: State, dirty: seq<Path>)
    requires AllDirty(s.cache, dirty)
    ensures ServeOps(Uploaded(s, LocalWins, dirty), NO_FAILURES).remote == Cycle(s).remote
  {
    UploadIsPointwise(s, dirty);
    AllServed(UploadAll(s), NO_FAILURES);
  }

  lemma QuietStep(s: State)
    requires Settling(s)
    ensures EngineStep(s, StepOf(s)) && Settling(StepOf(s))
  {
    StepIsCycle(s);
    CycleSettling(s);
    var dirty := SomeDirtyListing(s);
    ServedRemote(s, dirty);
    var listings := SomeListings(Cycle(s).remote);
    CycleIsPointwise(s, dirty, NO_FAILURES, listings);
  }

  /** The cycle keeps the world quiet, and the engine can take it. */
  predicate QuietNext(quiet: State -> bool, step: (State, State) -> bool, u: State, v: State) {
    quiet(u) ==> quiet(v) && step(u, v)
  }

  lemma {:induction false} GoodRun(quiet: State -> bool, step: (State, State) -> bool, s: State, n: nat)
    requires quiet(s) && forall u :: QuietNext(quiet, step, u, StepOf(u))
    ensures quiet(Cycles(s, n)) && IsRun(step, s, Cycles(s, n), n)
    decreases n
  {
    if n > 0 {
      GoodRun(quiet, step, s, n - 1);
      var u := Cycles(s, n - 1);
      assert QuietNext(quiet, step, u, StepOf(u));
    }
  }

  /** In a quiet world the engine can always go on, and its runs end in the states of the theorems above. */
  lemma QuietRun(s: State, n: nat)
    requires Settling(s)
    ensures Settling(Cycles(s, n)) && IsRun(EngineStep, s, Cycles(s, n), n)
  {
    forall u ensures QuietNext(Settling, EngineStep, u, StepOf(u)) {
      if Settling(u) {
        QuietStep(u);
      }
    }
    GoodRun(Settling, EngineStep, s, n);
  }
}
