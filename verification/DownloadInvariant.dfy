/** What every step of one Download keeps: the facts a reader, a waiter, the checkpoint flusher and
    the final clean-up rely on. */
module DownloadInvariant {
  import opened Basics
  import opened Ranges
  import opened Downloads

  /** The bytes a worker has streamed so far are all in the set. Only sequential ones ever pause. */
  ghost predicate WorkerSound(ranges: Intervals, total: nat, w: Worker) {
    && w.start <= w.pos
    && CoversRange(ranges, w.start, w.pos)
    && (w.phase.WroteChunk? ==> 0 < w.phase.n && w.pos + w.phase.n <= total)
    && (w.phase.Pausing? ==> w.sequential && w.pos <= total)
  }

  ghost predicate ReaderSound(ranges: Intervals, total: nat, r: Reader) {
    r.Granted? ==> CoversRange(ranges, r.offset, ReadEnd(r.offset, r.size, total))
  }

  /** `finish` runs on a complete set only, and nothing is ever written to the row that the set
      does not include. */
  ghost predicate JobSound(ranges: Intervals, total: nat, job: Job) {
    match job
    case FinishStart => Complete(ranges, total)
    case FinishPut(snap) => Canonical(snap) && Included(snap, ranges) && Complete(snap, total)
    case CancelPut(snap) => Canonical(snap) && Included(snap, ranges)
    case _ => true
  }

  ghost predicate SnapSound(ranges: Intervals, snap: Intervals) {
    Canonical(snap) && Included(snap, ranges)
  }

  ghost predicate WorkersSound(ranges: Intervals, total: nat, workers: map<nat, Worker>, nextId: nat) {
    forall g | g in workers :: g <= nextId && WorkerSound(ranges, total, workers[g])
  }

  ghost predicate ReadersSound(ranges: Intervals, total: nat, readers: map<nat, Reader>) {
    forall r | r in readers :: ReaderSound(ranges, total, readers[r])
  }

  ghost predicate JobsSound(ranges: Intervals, total: nat, jobs: seq<Job>) {
    forall k | 0 <= k < |jobs| :: JobSound(ranges, total, jobs[k])
  }

  /** `busy`: a goroutine runs and neither the error nor `done` is set. */
  ghost predicate SleeperSound(ranges: Intervals, total: nat, busy: bool, r: Reader) {
    r.Waiting? && !r.woken ==> busy && !CoversRange(ranges, r.offset, ReadEnd(r.offset, r.size, total))
  }

  /** No lost wake-up: whoever still sleeps has a goroutine to wait for and nothing to wake up for. */
  ghost predicate SleepersSound(ranges: Intervals, total: nat, busy: bool, readers: map<nat, Reader>) {
    forall r | r in readers :: SleeperSound(ranges, total, busy, readers[r])
  }

  predicate Busy(dl: Download) {
    dl.workers != map[] && !dl.err && !dl.done
  }

  ghost predicate Increasing(snaps: seq<Intervals>) {
    forall i, j | 0 <= i < j < |snaps| :: Included(snaps[i], snaps[j])
  }

  function Last<T>(s: seq<T>): T
    requires s != []
  {
    s[|s| - 1]
  }

  /** What a live flusher holds extends what is stored, and is the newest requested snapshot unless
      a newer one is pending. */
  ghost predicate FlusherSound(cp: Checkpoints, f: Flusher) {
    && (f.Stored? ==> cp.stored != [] && Last(cp.stored) == f.snap)
    && (!f.Stored? && cp.stored != [] ==> Included(Last(cp.stored), f.snap))
    && (cp.pending.Some? ==> Included(f.snap, cp.pending.value) && cp.requested == cp.pending)
    && (cp.pending.None? ==> cp.requested == Some(f.snap))
  }

  /** At most one flusher lives, what it stores only grows, and when it stops the newest requested
      snapshot is stored. */
  ghost predicate Coalesced(cp: Checkpoints) {
    && |cp.flushers| <= 1
    && (cp.inFlight <==> cp.flushers != [])
    && (!cp.inFlight ==> cp.pending.None?)
    && Increasing(cp.stored)
    && (cp.flushers != [] ==> FlusherSound(cp, cp.flushers[0]))
    && (cp.flushers == [] && cp.requested.Some? ==> cp.stored != [] && Last(cp.stored) == cp.requested.value)
    && (cp.flushers == [] && cp.requested.None? ==> cp.stored == [])
  }

  /** No snapshot goes beyond the set. */
  ghost predicate SnapsSound(ranges: Intervals, cp: Checkpoints) {
    && (cp.requested.Some? ==> SnapSound(ranges, cp.requested.value))
    && (forall j | 0 <= j < |cp.flushers| :: SnapSound(ranges, cp.flushers[j].snap))
  }

  ghost predicate DoneSound(ranges: Intervals, total: nat, done: bool, err: bool) {
    done ==> Complete(ranges, total) || err
  }

  ghost predicate Sound(dl: Download, total: nat) {
    && Canonical(dl.ranges)
    && DoneSound(dl.ranges, total, dl.done, dl.err)
    && WorkersSound(dl.ranges, total, dl.workers, dl.nextId)
    && ReadersSound(dl.ranges, total, dl.readers)
    && JobsSound(dl.ranges, total, dl.jobs)
    && SleepersSound(dl.ranges, total, Busy(dl), dl.readers)
    && SnapsSound(dl.ranges, dl.checkpoints)
    && Coalesced(dl.checkpoints)
  }

  /** `Sound` but for the sleepers, which a broadcast restores. */
  ghost predicate SoundAwake(dl: Download, total: nat) {
    && Canonical(dl.ranges)
    && DoneSound(dl.ranges, total, dl.done, dl.err)
    && WorkersSound(dl.ranges, total, dl.workers, dl.nextId)
    && ReadersSound(dl.ranges, total, dl.readers)
    && JobsSound(dl.ranges, total, dl.jobs)
    && SnapsSound(dl.ranges, dl.checkpoints)
    && Coalesced(dl.checkpoints)
  }

  lemma NewDownloadSound(resumed: Intervals, total: nat)
    requires Canonical(resumed)
    ensures Sound(NewDownload(resumed), total)
  {
  }

  // ---------- Building blocks ----------

  lemma SpawnedWorkers(ranges: Intervals, total: nat, workers: map<nat, Worker>, nextId: nat, start: nat,
      sequential: bool)
    requires WorkersSound(ranges, total, workers, nextId)
    ensures WorkersSound(ranges, total, workers[nextId + 1 := Worker(start, start, sequential, false, Ready)],
        nextId + 1)
  {
  }

  lemma SpawnSound(dl: Download, total: nat, start: nat, sequential: bool)
    requires Sound(dl, total)
    ensures Sound(Spawn(dl, start, sequential), total) && Spawn(dl, start, sequential).workers != map[]
  {
    SpawnedWorkers(dl.ranges, total, dl.workers, dl.nextId, start, sequential);
    assert dl.nextId + 1 in Spawn(dl, start, sequential).workers;
    SleepersMonotone(dl.ranges, total, Busy(dl), Busy(Spawn(dl, start, sequential)), dl.readers);
  }

  lemma SleepersMonotone(ranges: Intervals, total: nat, busy: bool, busier: bool, readers: map<nat, Reader>)
    requires SleepersSound(ranges, total, busy, readers) && (busy ==> busier)
    ensures SleepersSound(ranges, total, busier, readers)
  {
  }

  lemma BroadcastSound(dl: Download, total: nat)
    requires SoundAwake(dl, total)
    ensures Sound(Broadcast(dl), total)
  {
  }

  /** Cancelling workers changes nothing but their flags. */
  lemma CancelSound(dl: Download, total: nat, offset: nat)
    requires Sound(dl, total)
    ensures Sound(CancelWorkers(dl), total) && Sound(CancelFarBehind(dl, offset), total)
    ensures dl.workers != map[] ==> CancelFarBehind(dl, offset).workers != map[]
  {
  }

  lemma SetReaderSound(dl: Download, total: nat, r: nat, x: Reader)
    requires Sound(dl, total) && ReaderSound(dl.ranges, total, x) && SleeperSound(dl.ranges, total, Busy(dl), x)
    ensures Sound(SetReader(dl, r, x), total)
  {
  }

  lemma DropReaderSound(dl: Download, total: nat, r: nat)
    requires Sound(dl, total)
    ensures Sound(dl.(readers := dl.readers - {r}), total)
  {
  }

  lemma SetPhaseSound(dl: Download, total: nat, g: nat, phase: Phase)
    requires Sound(dl, total) && g in dl.workers
    requires phase.WroteChunk? ==> 0 < phase.n && dl.workers[g].pos + phase.n <= total
    requires !phase.Pausing?
    ensures Sound(SetPhase(dl, g, phase), total)
  {
  }

  // ---------- The critical sections ----------

  lemma EnterSound(dl: Download, total: nat, r: nat, offset: nat, size: nat)
    requires Sound(dl, total)
    ensures Sound(EnterWait(dl, total, r, offset, size), total)
  {
    if offset >= total {
      SetReaderSound(dl, total, r, Granted(offset, size));
    } else {
      var end := ReadEnd(offset, size, total);
      var d := Broadcast(dl.(lastReadPos := Max(dl.lastReadPos, end)));
      BroadcastSound(dl.(lastReadPos := Max(dl.lastReadPos, end)), total);
      if CoversRange(d.ranges, offset, end) {
        SetReaderSound(d, total, r, Granted(offset, size));
      } else if d.err {
      } else if d.done {
        // done without err means complete: the range would have been covered
        assert CoversRange(d.ranges, offset, end);
      } else {
        RedirectSound(d, total, offset);
        CancelSound(Redirected(d, offset), total, offset);
        SetReaderSound(CancelFarBehind(Redirected(d, offset), offset), total, r, Waiting(offset, size, false));
      }
    }
  }

  lemma RedirectSound(dl: Download, total: nat, offset: nat)
    requires Sound(dl, total)
    ensures var d := Redirected(dl, offset);
      Sound(d, total) && d.workers != map[] && d.ranges == dl.ranges && d.err == dl.err && d.done == dl.done
  {
    if dl.workers == map[] {
      SpawnSound(dl, total, offset, true);
    } else if !HasWorkerNear(dl, offset) {
      CancelSound(dl, total, offset);
      SpawnSound(CancelWorkers(dl), total, offset, true);
      SpawnSound(dl, total, offset, false);
    }
  }

  lemma RecheckSound(dl: Download, total: nat, r: nat)
    requires Sound(dl, total) && r in dl.readers && dl.readers[r].Waiting?
    ensures Sound(RecheckWait(dl, total, r), total)
  {
    var Waiting(offset, size, _) := dl.readers[r];
    if !CoversRange(dl.ranges, offset, ReadEnd(offset, size, total)) && !dl.err && !dl.done {
      SpawnSound(dl, total, offset, true);
      SetReaderSound(if dl.workers == map[] then Spawn(dl, offset, true)
          else dl, total, r, Waiting(offset, size, false));
    } else if dl.err {
      DropReaderSound(dl, total, r);
    } else {
      assert dl.done ==> CoversRange(dl.ranges, offset, ReadEnd(offset, size, total));
      SetReaderSound(dl, total, r, Granted(offset, size));
    }
  }

  /** The download after a commit, before waiters are woken and a checkpoint is requested. */
  function Grown(dl: Download, g: nat, phase: Phase): Download
    requires g in dl.workers && dl.workers[g].phase.WroteChunk?
  {
    var w := dl.workers[g];
    dl.(ranges := Added(dl.ranges, w.pos, w.phase.n),
        workers := dl.workers[g := w.(pos := w.pos + w.phase.n, phase := phase)],
        unpersisted := dl.unpersisted + w.phase.n)
  }

  lemma GrownWorker(dl: Download, total: nat, g: nat, phase: Phase)
    requires Sound(dl, total) && g in dl.workers && dl.workers[g].phase.WroteChunk? && !phase.WroteChunk?
    requires phase.Pausing? ==> dl.workers[g].sequential
    ensures SoundAwake(Grown(dl, g, phase), total)
    ensures Included(dl.ranges, Grown(dl, g, phase).ranges)
  {
    var w := dl.workers[g];
    var d := Grown(dl, g, phase);
    AddedView(dl.ranges, w.pos, w.phase.n);
    assert WorkerSound(dl.ranges, total, w);
    GrownSound(dl, d.ranges, total);
    assert WorkerSound(d.ranges, total, d.workers[g]);
    assert WorkersSound(d.ranges, total, d.workers, d.nextId);
  }

  lemma CommitSound(dl: Download, total: nat, g: nat, timeUp: bool)
    requires Sound(dl, total) && g in dl.workers && dl.workers[g].phase.WroteChunk?
    ensures Sound(CommitChunk(dl, total, g, timeUp), total)
    ensures Included(dl.ranges, CommitChunk(dl, total, g, timeUp).ranges)
  {
    var d := CommitChunk(dl, total, g, timeUp);
    var grown := Grown(dl, g, d.workers[g].phase);
    GrownWorker(dl, total, g, d.workers[g].phase);
    BroadcastSound(grown, total);
    PersistSound(Broadcast(grown), total);
    assert d == Broadcast(grown) || d == Persist(Broadcast(grown));
  }

  /** A larger set keeps every promise that does not concern sleepers. */
  lemma GrownSound(dl: Download, ranges: Intervals, total: nat)
    requires SoundAwake(dl, total) && Canonical(ranges) && Included(dl.ranges, ranges)
    ensures SoundAwake(dl.(ranges := ranges), total)
  {
  }

  lemma RequestCoalesced(cp: Checkpoints, ranges: Intervals)
    requires Coalesced(cp) && SnapsSound(ranges, cp) && Canonical(ranges)
    ensures Coalesced(Request(cp, ranges)) && SnapsSound(ranges, Request(cp, ranges))
  {
  }

  lemma PersistSound(dl: Download, total: nat)
    requires Sound(dl, total)
    ensures Sound(Persist(dl), total)
  {
  }

  lemma RecordErrorSound(dl: Download, total: nat, g: nat)
    requires Sound(dl, total) && g in dl.workers
    ensures Sound(RecordError(dl, g), total)
  {
  }

  lemma AppendJob(ranges: Intervals, total: nat, jobs: seq<Job>, job: Job)
    requires JobsSound(ranges, total, jobs) && JobSound(ranges, total, job)
    ensures JobsSound(ranges, total, jobs + [job])
  {
  }

  lemma ExitSound(dl: Download, total: nat, g: nat)
    requires Sound(dl, total)
    ensures Sound(ExitWorker(dl, total, g), total)
  {
  }

  lemma WriteDoneCoalesced(cp: Checkpoints, ranges: Intervals, j: nat, ok: bool)
    requires Coalesced(cp) && SnapsSound(ranges, cp) && j < |cp.flushers| && cp.flushers[j].Trying?
    ensures Coalesced(WriteDone(cp, j, ok)) && SnapsSound(ranges, WriteDone(cp, j, ok))
  {
  }

  lemma NextFlushCoalesced(cp: Checkpoints, ranges: Intervals, j: nat)
    requires Coalesced(cp) && SnapsSound(ranges, cp) && j < |cp.flushers| && !cp.flushers[j].Trying?
    ensures Coalesced(NextFlush(cp, j)) && SnapsSound(ranges, NextFlush(cp, j))
  {
  }

  lemma NextJobSound(dl: Download, total: nat, k: nat)
    requires Sound(dl, total) && k < |dl.jobs|
    ensures Sound(NextJob(dl, k), total)
  {
  }

  lemma {:induction false} FirstHoleFound(ivs: Intervals, from: nat, total: nat)
    requires from <= total && !CoversRange(ivs, from, total)
    ensures var h := FirstHole(ivs, from, total); from <= h < total && !Covers(ivs, h) && CoversRange(ivs, from, h)
    decreases total - from
  {
    if from < total && Covers(ivs, from) {
      FirstHoleFound(ivs, from + 1, total);
    }
  }

  lemma LaunchSound(dl: Download, total: nat)
    requires Sound(dl, total)
    ensures Sound(LaunchFirst(dl, total), total)
  {
  }

  predicate OfReader(s: Step) {
    s.Enter? || s.Recheck? || s.ReadAt? || s.Hint? || s.Promote? || s.Release?
  }

  lemma ReaderStepSound(cfg: Config, w: World, s: Step)
    requires OnDownload(s) && OfReader(s) && s in Possible(cfg, w) && Sound(Before(cfg, w, s), w.Total())
    ensures Sound(Stepped(cfg, w, s), w.Total())
  {
    var dl, total := Before(cfg, w, s), w.Total();
    match s
    case Enter(_, r, offset, size) => EnterSound(dl, total, r, offset, size);
    case Recheck(_, r) => RecheckSound(dl, total, r);
    case ReadAt(_, r) => DropReaderSound(dl, total, r);
    case Hint(_, offset) => SpawnSound(dl, total, offset, false);
    case Promote(_) => BroadcastSound(dl.(prefetch := true), total);
    case Release(_) =>
  }

  lemma CheckpointStepSound(cfg: Config, w: World, s: Step)
    requires (s.FlushWrite? || s.FlushNext? || s.RunJob?) && s in Possible(cfg, w)
        && Sound(Before(cfg, w, s), w.Total())
    ensures Sound(Stepped(cfg, w, s), w.Total())
  {
    var dl, total := Before(cfg, w, s), w.Total();
    match s
    case FlushWrite(_, j, ok) => WriteDoneCoalesced(dl.checkpoints, dl.ranges, j, ok);
    case FlushNext(_, j) => NextFlushCoalesced(dl.checkpoints, dl.ranges, j);
    case RunJob(_, k, _) => NextJobSound(dl, total, k);
  }

  lemma SectionStepSound(cfg: Config, w: World, s: Step)
    requires (s.Commit? || s.Fail? || s.Exit?) && s in Possible(cfg, w) && Sound(Before(cfg, w, s), w.Total())
    ensures Sound(Stepped(cfg, w, s), w.Total())
  {
    var dl, total := Before(cfg, w, s), w.Total();
    match s
    case Commit(_, g, timeUp) => CommitSound(dl, total, g, timeUp);
    case Fail(_, g) => RecordErrorSound(dl, total, g);
    case Exit(_, g) => ExitSound(dl, total, g);
  }

  /** Every step keeps everything a Download promises. */
  lemma StepSound(cfg: Config, w: World, s: Step)
    requires OnDownload(s) && s in Possible(cfg, w) && Sound(Before(cfg, w, s), w.Total())
    ensures Sound(Stepped(cfg, w, s), w.Total())
  {
    if OfReader(s) {
      ReaderStepSound(cfg, w, s);
    } else if s.FlushWrite? || s.FlushNext? || s.RunJob? {
      CheckpointStepSound(cfg, w, s);
    } else if s.Commit? || s.Fail? || s.Exit? {
      SectionStepSound(cfg, w, s);
    } else {
      WorkerStepSound(cfg, w, s);
    }
  }

  lemma WorkerStepSound(cfg: Config, w: World, s: Step)
    requires OfWorker(s) && !s.Commit? && !s.Fail? && !s.Exit?
    requires s in Possible(cfg, w) && Sound(Before(cfg, w, s), w.Total())
    ensures Sound(Stepped(cfg, w, s), w.Total())
  {
    var dl, total := Before(cfg, w, s), w.Total();
    var phase := Stepped(cfg, w, s).workers[s.g].phase;
    SetPhaseSound(dl, total, s.g, phase);
    assert Stepped(cfg, w, s) == SetPhase(dl, s.g, phase);
  }
}
