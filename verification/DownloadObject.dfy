/** The `Download` object itself. Each method is one critical section, run with the download's lock
    held, and is proved to do what the step function of `Downloads` says. */
module DownloadObject {
  import opened Basics
  import opened Ranges
  import opened Downloads
  import opened DownloadInvariant

  datatype Outcome = Returned | ReturnedError | Blocked

  class DownloadState {
    const totalSize: nat
    const rangeSet: RangeSet
    var goroutines: map<nat, Worker>
    var nextId: nat
    var done: bool
    var err: bool
    var prefetch: bool
    var lastReadPos: int
    var openCount: int
    var readers: map<nat, Reader>
    var unpersisted: nat
    var checkpoints: Checkpoints
    var jobs: seq<Job>
    ghost var finishes: nat
    ghost var cleanups: nat

    ghost predicate Valid()
      reads this, rangeSet
    {
      rangeSet.Valid()
    }

    ghost function Value(): Download
      reads this, rangeSet
    {
      Download(rangeSet.intervals, goroutines, nextId, done, err, prefetch, lastReadPos, openCount, readers,
               unpersisted, checkpoints, jobs, finishes, cleanups)
    }

    constructor (totalSize: nat, resumed: seq<(int, int)>)
      requires Canonical(FromPairs(resumed))
      ensures Valid() && fresh(rangeSet) && this.totalSize == totalSize
      ensures Value() == NewDownload(FromPairs(resumed))
    {
      this.totalSize := totalSize;
      rangeSet := new RangeSet.Unmarshal(resumed);
      goroutines, nextId, readers := map[], 0, map[];
      done, err, prefetch := false, false, false;
      lastReadPos, openCount, unpersisted := 0, 1, 0;
      checkpoints, jobs := Checkpoints(false, None, [], None, []), [];
      finishes, cleanups := 0, 0;
    }

    /** `cond.Broadcast`: every waiter will look again. */
    method WakeAll()
      requires Valid()
      modifies this`readers
      ensures Valid() && Value() == Broadcast(old(Value()))
    {
      readers := map r | r in readers :: Wake(readers[r]);
    }

    method HasGoroutineNear(offset: nat) returns (near: bool)
      requires Valid()
      ensures near <==> HasWorkerNear(Value(), offset)
    {
      var ids := goroutines.Keys;
      while ids != {}
        invariant ids <= goroutines.Keys
        invariant forall g | g in goroutines && g !in ids :: !Near(goroutines[g], offset)
        decreases ids
      {
        var g :| g in ids;
        var pos := goroutines[g].pos;
        if pos <= offset && offset - pos < GOROUTINE_WINDOW {
          return true;
        }
        if pos > offset && pos - offset < GOROUTINE_WINDOW {
          return true;
        }
        ids := ids - {g};
      }
      return false;
    }

    /** Closes the stop channel of every goroutine in the map. */
    method CancelAll()
      requires Valid()
      modifies this`goroutines
      ensures Valid() && Value() == CancelWorkers(old(Value()))
    {
      var ids := goroutines.Keys;
      ghost var before := goroutines;
      while ids != {}
        invariant ids <= goroutines.Keys == before.Keys
        invariant forall g | g in before :: goroutines[g] == if g in ids then before[g]
            else before[g].(cancelled := true)
        decreases ids
      {
        var g :| g in ids;
        goroutines := goroutines[g := goroutines[g].(cancelled := true)];
        ids := ids - {g};
      }
    }

    method CancelFarBehindOf(offset: nat)
      requires Valid()
      modifies this`goroutines
      ensures Valid() && Value() == CancelFarBehind(old(Value()), offset)
    {
      var ids := goroutines.Keys;
      ghost var before := goroutines;
      while ids != {}
        invariant ids <= goroutines.Keys == before.Keys
        invariant forall g | g in before && g !in ids && FarBehind(before[g], offset) ::
          goroutines[g] == before[g].(cancelled := true)
        invariant forall g | g in before && !(g !in ids && FarBehind(before[g], offset)) :: goroutines[g] == before[g]
        decreases ids
      {
        var g :| g in ids;
        var worker := goroutines[g];
        ids := ids - {g};
        if worker.sequential || worker.pos >= offset {
          continue;
        }
        if offset - worker.pos > GOROUTINE_WINDOW {
          goroutines := goroutines[g := worker.(cancelled := true)];
        }
      }
    }

    method SpawnGoroutine(start: nat, sequential: bool)
      requires Valid()
      modifies this`goroutines, this`nextId
      ensures Valid() && Value() == Spawn(old(Value()), start, sequential)
    {
      nextId := nextId + 1;
      goroutines := goroutines[nextId := Worker(start, start, sequential, false, Ready)];
    }

    /** Starts or redirects goroutines for a reader at `offset`; the middle of `waitForRange`. */
    method Redirect(offset: nat)
      requires Valid()
      modifies this
      ensures Valid() && Value() == Redirected(old(Value()), offset)
    {
      if goroutines == map[] {
        SpawnGoroutine(offset, true);
      } else {
        var near := HasGoroutineNear(offset);
        if !near {
          if openCount == 1 {
            CancelAll();
            SpawnGoroutine(offset, true);
          } else {
            SpawnGoroutine(offset, false);
          }
        }
      }
    }

    /** `waitForRange` up to its first return or its first wait. */
    method WaitForRange(r: nat, offset: nat, size: nat) returns (outcome: Outcome)
      requires Valid() && r !in readers
      modifies this
      ensures Valid() && Value() == EnterWait(old(Value()), totalSize, r, offset, size)
      ensures outcome.Blocked? <==> r in readers && readers[r].Waiting?
      ensures outcome.Returned? <==> r in readers && readers[r].Granted?
    {
      if offset >= totalSize {
        readers := readers[r := Granted(offset, size)];
        return Returned;
      }
      var n := size;
      if offset + size > totalSize {
        n := totalSize - offset;
      }
      if offset + n > lastReadPos {
        lastReadPos := offset + n;
      }
      WakeAll();
      assert Value() == Broadcast(old(Value()).(lastReadPos := Max(old(lastReadPos),
          ReadEnd(offset, size, totalSize))));
      ghost var woken := Value();
      var covered := rangeSet.Contains(offset, n);
      if covered {
        readers := readers[r := Granted(offset, size)];
        return Returned;
      }
      if err {
        return ReturnedError;
      }
      if done {
        readers := readers[r := Granted(offset, size)];
        return Returned;
      }
      Redirect(offset);
      CancelFarBehindOf(offset);
      assert Value() == CancelFarBehind(Redirected(woken, offset), offset);
      readers := readers[r := Waiting(offset, size, false)];
      return Blocked;
    }

    /** One round of the wait loop after a wake-up. */
    method WaitRound(r: nat) returns (outcome: Outcome)
      requires Valid() && r in readers && readers[r].Waiting?
      modifies this
      ensures Valid() && Value() == RecheckWait(old(Value()), totalSize, r)
      ensures outcome.Blocked? <==> r in readers && readers[r].Waiting?
      ensures outcome.Returned? <==> r in readers && readers[r].Granted?
    {
      var offset, size := readers[r].offset, readers[r].size;
      var covered := rangeSet.Contains(offset, Min(offset + size, totalSize) - offset);
      if !covered && !err && !done {
        if goroutines == map[] {
          SpawnGoroutine(offset, true);
        }
        readers := readers[r := Waiting(offset, size, false)];
        return Blocked;
      }
      if err {
        readers := readers - {r};
        return ReturnedError;
      }
      readers := readers[r := Granted(offset, size)];
      return Returned;
    }

    method HintNext(offset: nat)
      requires Valid()
      modifies this
      ensures Valid() && Value() == HintAt(old(Value()), offset)
    {
      if done || err {
        return;
      }
      var covered := rangeSet.Contains(offset, CHUNK_SIZE);
      if covered {
        return;
      }
      var near := HasGoroutineNear(offset);
      if !near {
        SpawnGoroutine(offset, false);
      }
    }

    method PersistRanges()
      requires Valid()
      modifies this`unpersisted, this`checkpoints
      ensures Valid() && Value() == Persist(old(Value()))
    {
      var pairs := rangeSet.Marshal();
      var snapshot := FromPairs(pairs);
      unpersisted := 0;
      checkpoints := checkpoints.(requested := Some(snapshot));
      if checkpoints.inFlight {
        checkpoints := checkpoints.(pending := Some(snapshot));
        return;
      }
      checkpoints := checkpoints.(inFlight := true, flushers := checkpoints.flushers + [Trying(snapshot)]);
    }

    /** The flusher's section after its write, which stored the snapshot if `ok`. */
    method FlushSection(j: nat, ok: bool) returns (again: Option<Intervals>)
      requires Valid() && j < |checkpoints.flushers|
      requires checkpoints.flushers[j].Stored? == ok && checkpoints.flushers[j].Unstored? == !ok
      modifies this`checkpoints
      ensures Valid() && Value() == old(Value()).(checkpoints := NextFlush(old(checkpoints), j))
      ensures again.Some? ==> j < |checkpoints.flushers| && checkpoints.flushers[j] == Trying(again.value)
      ensures again.None? ==> !checkpoints.inFlight
    {
      var snapshot := checkpoints.flushers[j].snap;
      if !ok {
        if checkpoints.pending.None? {
          checkpoints := checkpoints.(pending := Some(snapshot));
        }
      } else if checkpoints.pending.None? {
        checkpoints := checkpoints.(inFlight := false,
            flushers := checkpoints.flushers[..j] + checkpoints.flushers[j + 1..]);
        return None;
      }
      snapshot := checkpoints.pending.value;
      checkpoints := checkpoints.(pending := None, flushers := checkpoints.flushers[j := Trying(snapshot)]);
      return Some(snapshot);
    }

    /** The first part of the section after a chunk: the set, the counter and the waiters. */
    method AddChunk(pos: nat, n: nat)
      requires Valid()
      modifies this`unpersisted, this`readers, rangeSet
      ensures Valid()
      ensures Value() == Grow(old(Value()), pos, n)
    {
      rangeSet.Add(pos, n);
      unpersisted := unpersisted + n;
      WakeAll();
    }

    /** A secondary goroutine stops where the next chunk is already there. */
    method NextPhase(pos: nat, sequential: bool) returns (phase: Phase)
      requires Valid()
      ensures phase == PhaseAt(rangeSet.intervals, totalSize, pos, sequential)
    {
      var next := rangeSet.Contains(pos, CHUNK_SIZE);
      var nextCovered := next && pos + CHUNK_SIZE <= totalSize;
      phase := if nextCovered && !sequential then Leaving else if sequential then Pausing else Ready;
    }

    /** A checkpoint when enough bytes or time have passed. */
    method MaybePersist(timeUp: bool)
      requires Valid()
      modifies this`unpersisted, this`checkpoints
      ensures Valid() && Value() == PersistIf(old(Value()), timeUp)
    {
      if unpersisted >= PERSIST_BYTES || timeUp {
        PersistRanges();
      }
    }

    /** The section after a chunk has been written to the cache file. */
    method Commit(g: nat, timeUp: bool)
      requires Valid() && g in goroutines && goroutines[g].phase.WroteChunk?
      modifies this, rangeSet
      ensures Valid() && Value() == CommitChunk(old(Value()), totalSize, g, timeUp)
    {
      CommitParts(Value(), totalSize, g, timeUp);
      var worker := goroutines[g];
      AddChunk(worker.pos, worker.phase.n);
      var pos := worker.pos + worker.phase.n;
      MaybePersist(timeUp);
      var phase := NextPhase(pos, worker.sequential);
      goroutines := goroutines[g := worker.(pos := pos, phase := phase)];
    }

    /** The deferred section of a download goroutine. */
    method Exit(g: nat)
      requires Valid()
      modifies this
      ensures Valid() && Value() == ExitWorker(old(Value()), totalSize, g)
    {
      goroutines := goroutines - {g};
      var complete := rangeSet.IsComplete(totalSize);
      if goroutines == map[] && complete && !done {
        done := true;
        finishes := finishes + 1;
        jobs := jobs + [FinishStart];
      } else if goroutines == map[] && err && !done {
        done := true;
        cleanups := cleanups + 1;
        jobs := jobs + [ForgetFirst];
      }
      WakeAll();
    }

    /** The section of `cancel`, with the snapshot it takes. */
    method CancelLocked() returns (snapshot: Intervals)
      requires Valid()
      modifies this
      ensures Valid() && Value() == CancelSection(old(Value())) && snapshot == rangeSet.intervals
    {
      CancelAll();
      if !err {
        err := true;
      }
      WakeAll();
      var pairs := rangeSet.Marshal();
      snapshot := FromPairs(pairs);
    }

    /** The last part of `Start`: stream from the first gap, or finish at once. */
    method LaunchDownload()
      requires Valid()
      modifies this
      ensures Valid() && Value() == LaunchFirst(old(Value()), totalSize)
    {
      var seqStart := 0;
      var gaps := rangeSet.Gaps(totalSize);
      if gaps != [] {
        HoleAfterHead(gaps);
        seqStart := gaps[0].start;
      }
      var complete := rangeSet.IsComplete(totalSize);
      if !complete {
        FirstGapIsFirstHole(rangeSet.intervals, gaps, totalSize);
        SpawnGoroutine(seqStart, true);
      } else {
        done := true;
        finishes := finishes + 1;
        jobs := jobs + [FinishStart];
      }
    }
  }

  function Grow(dl: Download, pos: nat, n: nat): Download {
    Broadcast(dl.(ranges := Added(dl.ranges, pos, n), unpersisted := dl.unpersisted + n))
  }

  ghost function PhaseAt(ranges: Intervals, total: nat, pos: nat, sequential: bool): Phase {
    if sequential then Pausing
    else if CoversRange(ranges, pos, pos + CHUNK_SIZE) && pos + CHUNK_SIZE <= total then Leaving else Ready
  }

  function PersistIf(dl: Download, timeUp: bool): Download {
    if timeUp || dl.unpersisted >= PERSIST_BYTES then Persist(dl) else dl
  }

  /** The section of a chunk in the order of the code: add, persist, then move the goroutine on. */
  lemma CommitParts(dl: Download, total: nat, g: nat, timeUp: bool)
    requires g in dl.workers && dl.workers[g].phase.WroteChunk?
    ensures var w := dl.workers[g];
      var pos := w.pos + w.phase.n;
      var d := PersistIf(Grow(dl, w.pos, w.phase.n), timeUp);
      CommitChunk(dl, total, g, timeUp) ==
        d.(workers := dl.workers[g := w.(pos := pos, phase := PhaseAt(d.ranges, total, pos, w.sequential))])
  {
  }

  lemma FirstGapIsFirstHole(ivs: Intervals, gaps: Intervals, total: nat)
    requires Canonical(gaps) && !Complete(ivs, total)
    requires forall b :: Covers(gaps, b) <==> 0 <= b < total && !Covers(ivs, b)
    ensures gaps != [] && gaps[0].start == FirstHole(ivs, 0, total)
  {
    FirstHoleFound(ivs, 0, total);
    assert Covers(gaps, FirstHole(ivs, 0, total));
    HoleAfterHead(gaps);
  }
}
