/** A blocked read of a sole reader. Without faults every step of a goroutine or of the waiter brings the
    return of `WaitForRange` nearer, whatever the read-ahead limit; some such step is possible unless all
    goroutines are throttled; and the wait can only end with success. */
module DownloadWait {
  import opened Basics
  import opened Ranges
  import opened Downloads
  import opened DownloadInvariant
  import opened DownloadSafety

  /** No error happened. */
  ghost predicate FaultFree(dl: Download, total: nat) {
    !dl.err && forall g | g in dl.workers :: !dl.workers[g].phase.Failing?
  }

  /** The only reader waits for a range that starts inside the file, and has announced its end. */
  ghost predicate InWait(dl: Download, total: nat, r: nat) {
    && Sound(dl, total) && FaultFree(dl, total)
    && dl.readers.Keys == {r} && dl.readers[r].Waiting? && dl.readers[r].offset < total
    && ReadEnd(dl.readers[r].offset, dl.readers[r].size, total) <= dl.lastReadPos
  }

  /** The steps that serve the waiter. A stream that does not fail ends at the end of the file only. */
  ghost predicate Serves(w: World, i: nat, r: nat, s: Step) {
    && (|| s.Quit? || s.EndOfStream? || s.Chunk? || s.Commit? || s.Proceed? || s.StopIdle? || s.Exit?
        || s == Recheck(i, r))
    && s.i == i
    && (s.EndOfStream? ==>
          i < |w.downloads| && s.g in w.downloads[i].workers && w.downloads[i].workers[s.g].pos >= w.Total())
  }

  // ---------- The measure ----------

  function PhaseWeight(p: Phase): nat {
    match p
    case Pausing => 3
    case Ready => 2
    case _ => 1
  }

  function Weight(w: Worker, total: nat): nat {
    4 * Max(0, total - w.pos) + PhaseWeight(w.phase)
  }

  ghost function Work(workers: map<nat, Worker>, total: nat): nat
    decreases |workers|
  {
    if workers == map[] then 0
    else
      var g :| g in workers;
      assert |workers - {g}| < |workers| by { Smaller(workers, g); }
      Weight(workers[g], total) + Work(workers - {g}, total)
  }

  lemma Smaller(workers: map<nat, Worker>, g: nat)
    requires g in workers
    ensures |workers - {g}| < |workers|
  {
  }

  lemma {:induction false} WorkSplit(workers: map<nat, Worker>, total: nat, g: nat)
    requires g in workers
    ensures Work(workers, total) == Weight(workers[g], total) + Work(workers - {g}, total)
    decreases |workers|
  {
    var h :| h in workers && Work(workers, total) == Weight(workers[h], total) + Work(workers - {h}, total);
    if h != g {
      Smaller(workers, h);
      WorkSplit(workers - {h}, total, g);
      Smaller(workers, g);
      WorkSplit(workers - {g}, total, h);
      assert workers - {h} - {g} == workers - {g} - {h};
    }
  }

  lemma WorkUpdate(workers: map<nat, Worker>, total: nat, g: nat, w: Worker)
    ensures g in workers ==>
      Work(workers[g := w], total) + Weight(workers[g], total) == Work(workers, total) + Weight(w, total)
    ensures g !in workers ==> Work(workers[g := w], total) == Work(workers, total) + Weight(w, total)
  {
    WorkSplit(workers[g := w], total, g);
    if g in workers {
      WorkSplit(workers, total, g);
      assert workers[g := w] - {g} == workers - {g};
    } else {
      assert workers[g := w] - {g} == workers;
    }
  }

  /** A goroutine that will have the wanted range streamed: all of the range before its start is there, and it
      cannot leave before the end of the range. One that is not sequential leaves where the next chunk is
      already covered. */
  ghost predicate Server(w: Worker, ranges: Intervals, offset: nat, end: int) {
    && !w.cancelled && !w.phase.Leaving? && CoversRange(ranges, offset, Min(w.start, end))
    && (w.sequential || end <= w.start + CHUNK_SIZE)
  }

  ghost predicate Served(dl: Download, total: nat, r: Reader) {
    var end := ReadEnd(r.offset, r.size, total);
    || CoversRange(dl.ranges, r.offset, end)
    || exists g :: g in dl.workers && Server(dl.workers[g], dl.ranges, r.offset, end)
  }

  /** Respawns left, bytes and phases left, and whether the waiter has to look again. */
  ghost function Measure(dl: Download, total: nat, r: nat): nat
    requires r in dl.readers && dl.readers[r].Waiting?
  {
    (if Served(dl, total, dl.readers[r]) then 0 else 8 * total + 8)
    + 2 * Work(dl.workers, total)
    + (if dl.readers[r].woken then 1 else 0)
  }

  // ---------- Every serving step makes progress ----------

  /** What one serving step achieves: the read is granted, or the wait goes on with less to do. */
  ghost predicate Progress(dl: Download, e: Download, total: nat, r: nat)
    requires r in dl.readers && dl.readers[r].Waiting?
  {
    || (r in e.readers && e.readers[r].Granted?)
    || (InWait(e, total, r) && Measure(e, total, r) < Measure(dl, total, r))
  }

  /** A goroutine that has all of the range before its start covered and is past its end has it all covered. */
  lemma PastEnd(ranges: Intervals, total: nat, w: Worker, offset: nat, end: int)
    requires WorkerSound(ranges, total, w) && CoversRange(ranges, offset, Min(w.start, end)) && end <= w.pos
    ensures CoversRange(ranges, offset, end)
  {
  }

  lemma PhaseProgress(dl: Download, total: nat, r: nat, g: nat, phase: Phase)
    requires InWait(dl, total, r) && g in dl.workers && !phase.Failing?
    requires PhaseWeight(phase) < PhaseWeight(dl.workers[g].phase)
    requires Sound(SetPhase(dl, g, phase), total)
    requires var reader := dl.readers[r];
      var end := ReadEnd(reader.offset, reader.size, total);
      phase.Leaving? && Server(dl.workers[g], dl.ranges, reader.offset, end) ==>
        CoversRange(dl.ranges, reader.offset, end)
    ensures Progress(dl, SetPhase(dl, g, phase), total, r)
    ensures Served(dl, total, dl.readers[r]) ==> Served(SetPhase(dl, g, phase), total, dl.readers[r])
  {
    var e := SetPhase(dl, g, phase);
    WorkUpdate(dl.workers, total, g, e.workers[g]);
    assert FaultFree(e, total);
    ServedKept(dl, e, total, r);
  }

  /** Goroutines keep their start and flags and the set only grows, so a served reader stays served. */
  lemma ServedKept(dl: Download, e: Download, total: nat, r: nat)
    requires r in dl.readers && r in e.readers && e.readers[r].offset == dl.readers[r].offset
        && e.readers[r].size == dl.readers[r].size
    requires Included(dl.ranges, e.ranges)
    requires var reader := dl.readers[r];
      var end := ReadEnd(reader.offset, reader.size, total);
      forall g | g in dl.workers && Server(dl.workers[g], dl.ranges, reader.offset, end) ::
        (g in e.workers && Server(e.workers[g], e.ranges, reader.offset, end)) || Served(e, total, e.readers[r])
    ensures Served(dl, total, dl.readers[r]) ==> Served(e, total, e.readers[r])
  {
  }

  /** A goroutine that moves on with the same start and flags, while the set only grows. */
  lemma ReplaceProgress(dl: Download, e: Download, total: nat, r: nat, g: nat, x: Worker)
    requires InWait(dl, total, r) && InWait(e, total, r) && g in dl.workers && e.workers == dl.workers[g := x]
    requires e.readers[r].offset == dl.readers[r].offset && e.readers[r].size == dl.readers[r].size
    requires Included(dl.ranges, e.ranges) && Weight(x, total) < Weight(dl.workers[g], total)
    requires x.start == dl.workers[g].start && x.sequential == dl.workers[g].sequential
        && x.cancelled == dl.workers[g].cancelled
    requires var reader := dl.readers[r];
      var end := ReadEnd(reader.offset, reader.size, total);
      x.phase.Leaving? && Server(dl.workers[g], dl.ranges, reader.offset, end) ==>
        CoversRange(e.ranges, reader.offset, end)
    ensures Measure(e, total, r) < Measure(dl, total, r)
    ensures Served(dl, total, dl.readers[r]) ==> Served(e, total, e.readers[r])
  {
    WorkUpdate(dl.workers, total, g, x);
    ServedKept(dl, e, total, r);
  }

  lemma CommitProgress(dl: Download, total: nat, r: nat, g: nat, timeUp: bool)
    requires InWait(dl, total, r) && g in dl.workers && dl.workers[g].phase.WroteChunk?
    ensures Progress(dl, CommitChunk(dl, total, g, timeUp), total, r)
    ensures var e := CommitChunk(dl, total, g, timeUp);
      InWait(e, total, r) && (Served(dl, total, dl.readers[r]) ==> Served(e, total, e.readers[r]))
  {
    var e := CommitChunk(dl, total, g, timeUp);
    CommitSound(dl, total, g, timeUp);
    assert WorkerSound(dl.ranges, total, dl.workers[g]) && WorkerSound(e.ranges, total, e.workers[g]);
    assert e.workers == dl.workers[g := e.workers[g]] && e.readers.Keys == {r};
    assert FaultFree(e, total);
    CommitLeaves(dl, e, total, r, g);
    ReplaceProgress(dl, e, total, r, g, e.workers[g]);
  }

  /** Where the next chunk is covered, a goroutine that serves a short range has it all covered. */
  lemma CommitLeaves(dl: Download, e: Download, total: nat, r: nat, g: nat)
    requires InWait(dl, total, r) && g in dl.workers && g in e.workers && Included(dl.ranges, e.ranges)
    requires WorkerSound(e.ranges, total, e.workers[g]) && e.workers[g].start == dl.workers[g].start
    requires e.workers[g].phase.Leaving? ==>
      !dl.workers[g].sequential && CoversRange(e.ranges, e.workers[g].pos, e.workers[g].pos + CHUNK_SIZE)
    ensures var reader := dl.readers[r];
      var end := ReadEnd(reader.offset, reader.size, total);
      e.workers[g].phase.Leaving? && Server(dl.workers[g], dl.ranges, reader.offset, end)
      ==> CoversRange(e.ranges, reader.offset, end)
  {
  }

  lemma ExitProgress(dl: Download, total: nat, r: nat, g: nat)
    requires InWait(dl, total, r) && g in dl.workers && dl.workers[g].phase.Leaving?
    ensures var e := ExitWorker(dl, total, g);
      && Progress(dl, e, total, r) && InWait(e, total, r)
      && (Served(dl, total, dl.readers[r]) ==> Served(e, total, e.readers[r]))
  {
    var e := ExitWorker(dl, total, g);
    ExitSound(dl, total, g);
    WorkSplit(dl.workers, total, g);
    assert e.workers == dl.workers - {g};
    assert e.readers.Keys == {r};
    ServedKept(dl, e, total, r);
    assert FaultFree(e, total);
  }

  lemma RecheckProgress(dl: Download, total: nat, r: nat)
    requires InWait(dl, total, r) && dl.readers[r].woken
    ensures var e := RecheckWait(dl, total, r);
      && Progress(dl, e, total, r)
      && (InWait(e, total, r) ==>
            (Served(dl, total, dl.readers[r]) || dl.workers == map[] ==> Served(e, total, e.readers[r])))
  {
    var e := RecheckWait(dl, total, r);
    var reader := dl.readers[r];
    RecheckSound(dl, total, r);
    if !CoversRange(dl.ranges, reader.offset, ReadEnd(reader.offset, reader.size, total)) && !dl.done {
      assert e.readers.Keys == {r};
      if dl.workers == map[] {
        var server := Worker(reader.offset, reader.offset, true, false, Ready);
        WorkUpdate(dl.workers, total, dl.nextId + 1, server);
        assert e.workers == map[dl.nextId + 1 := server];
        assert Server(e.workers[dl.nextId + 1], e.ranges, reader.offset, ReadEnd(reader.offset, reader.size, total));
        assert !Served(dl, total, reader) && Served(e, total, e.readers[r]);
        assert Work(dl.workers, total) == 0;
      } else {
        ServedKept(dl, e, total, r);
      }
      assert FaultFree(e, total);
    }
  }

  /** A goroutine leaves by itself only when it is cancelled, at the end of the file, or past the limit. */
  lemma LeavesCovered(cfg: Config, w: World, i: nat, r: nat, s: Step)
    requires OnDownload(s) && s in Possible(cfg, w) && Serves(w, i, r, s)
    requires s.Quit? || s.EndOfStream? || s.StopIdle? || s.Proceed?
    requires i < |w.downloads| && InWait(w.downloads[i], w.Total(), r)
    ensures var dl := w.downloads[i];
      var reader := dl.readers[r];
      var end := ReadEnd(reader.offset, reader.size, w.Total());
      Stepped(cfg, w, s).workers[s.g].phase.Leaving? && Server(dl.workers[s.g], dl.ranges, reader.offset, end)
      ==> CoversRange(dl.ranges, reader.offset, end)
  {
    var dl, total := w.downloads[i], w.Total();
    var worker, reader := dl.workers[s.g], dl.readers[r];
    var end := ReadEnd(reader.offset, reader.size, total);
    assert WorkerSound(dl.ranges, total, worker);
    if Server(worker, dl.ranges, reader.offset, end) && end <= worker.pos {
      PastEnd(dl.ranges, total, worker, reader.offset, end);
    }
  }

  lemma ServingPhase(cfg: Config, w: World, i: nat, r: nat, s: Step)
    requires OnDownload(s) && s in Possible(cfg, w) && Serves(w, i, r, s) && !s.Recheck? && !s.Commit? && !s.Exit?
    requires i < |w.downloads| && InWait(w.downloads[i], w.Total(), r)
    ensures var dl, e := w.downloads[i], Stepped(cfg, w, s);
      && Progress(dl, e, w.Total(), r) && InWait(e, w.Total(), r)
      && (Served(dl, w.Total(), dl.readers[r]) ==> Served(e, w.Total(), e.readers[r]))
  {
    var dl, total := w.downloads[i], w.Total();
    var phase := Stepped(cfg, w, s).workers[s.g].phase;
    assert Stepped(cfg, w, s) == SetPhase(dl, s.g, phase);
    assert WorkerSound(dl.ranges, total, dl.workers[s.g]);
    SetPhaseSound(dl, total, s.g, phase);
    if !s.Chunk? {
      LeavesCovered(cfg, w, i, r, s);
    }
    PhaseProgress(dl, total, r, s.g, phase);
  }

  /** Every step that serves the reader grants the read or leaves less to do, whatever the limit; and a served
      reader stays served. */
  lemma ServingStep(cfg: Config, w: World, i: nat, r: nat, s: Step)
    requires OnDownload(s) && s in Possible(cfg, w) && Serves(w, i, r, s)
    requires i < |w.downloads| && InWait(w.downloads[i], w.Total(), r)
    ensures var dl, e := w.downloads[i], Stepped(cfg, w, s);
      && Progress(dl, e, w.Total(), r)
      && (InWait(e, w.Total(), r) && Served(dl, w.Total(), dl.readers[r]) ==> Served(e, w.Total(), e.readers[r]))
  {
    var dl, total := w.downloads[i], w.Total();
    if s.Recheck? {
      RecheckProgress(dl, total, r);
    } else if s.Commit? {
      CommitProgress(dl, total, r, s.g, s.timeUp);
    } else if s.Exit? {
      ExitProgress(dl, total, r, s.g);
    } else {
      ServingPhase(cfg, w, i, r, s);
    }
  }

  /** The waiter sleeps, no idle timeout is set, and every goroutine is throttled. */
  ghost predicate Hanging(cfg: Config, dl: Download, r: nat) {
    && r in dl.readers && dl.readers[r].Waiting? && !dl.readers[r].woken && !cfg.idleTimeout
    && forall g | g in dl.workers :: dl.workers[g].phase.Pausing? && Throttled(cfg, dl, dl.workers[g])
  }

  /** No deadlock but one: while the reader waits, some serving step can be taken, unless it hangs. */
  lemma ServingStepPossible(cfg: Config, w: World, i: nat, r: nat) returns (s: Step)
    requires WorldSound(w) && i < |w.downloads| && InWait(w.downloads[i], w.Total(), r)
    requires !Hanging(cfg, w.downloads[i], r)
    ensures s in Possible(cfg, w) && Serves(w, i, r, s)
  {
    var dl := w.downloads[i];
    if dl.readers[r].woken {
      s := Recheck(i, r);
    } else if g :| g in dl.workers && !(dl.workers[g].phase.Pausing? && Throttled(cfg, dl, dl.workers[g])) {
      s := StepOfWorker(cfg, w, i, r, g);
    } else {
      assert SleeperSound(dl.ranges, w.Total(), Busy(dl), dl.readers[r]);
      var g :| g in dl.workers;
      s := StopIdle(i, g);
    }
  }

  lemma StepOfWorker(cfg: Config, w: World, i: nat, r: nat, g: nat) returns (s: Step)
    requires WorldSound(w)
    requires i < |w.downloads| && InWait(w.downloads[i], w.Total(), r) && g in w.downloads[i].workers
    requires w.downloads[i].workers[g].phase.Pausing? ==> !Throttled(cfg, w.downloads[i], w.downloads[i].workers[g])
    ensures s in Possible(cfg, w) && Serves(w, i, r, s)
  {
    var worker := w.downloads[i].workers[g];
    if worker.phase.Ready? {
      assert WorkerSound(w.downloads[i].ranges, w.Total(), worker);
      s := StepOfReady(cfg, w, i, r, g);
    } else {
      s := if worker.phase.WroteChunk? then Commit(i, g, false) else if worker.phase.Pausing? then Proceed(i, g)
          else Exit(i, g);
      assert InPhase(w, i, g, worker.phase);
    }
  }

  lemma StepOfReady(cfg: Config, w: World, i: nat, r: nat, g: nat) returns (s: Step)
    requires InPhase(w, i, g, Ready) && (w.downloads[i].workers[g].pos < w.Total() ==> |w.disk| == w.Total())
    requires w.downloads[i].workers[g].start <= w.downloads[i].workers[g].pos
    ensures s in Possible(cfg, w) && Serves(w, i, r, s)
  {
    var worker, total := w.downloads[i].workers[g], w.Total();
    if worker.start >= total {
      s := Quit(i, g);
    } else if worker.pos >= total {
      s := EndOfStream(i, g);
    } else {
      s := Chunk(i, g, w.remote[worker.pos..worker.pos + 1]);
    }
  }

  ghost predicate Stuck(cfg: Config, w: World, i: nat, r: nat) {
    forall s | s in Possible(cfg, w) :: !Serves(w, i, r, s)
  }

  lemma HangingStuck(cfg: Config, w: World, i: nat, r: nat)
    requires i < |w.downloads| && Hanging(cfg, w.downloads[i], r)
    ensures Stuck(cfg, w, i, r)
  {
  }

  /** In this state, and in no other, nothing can serve the waiter. */
  lemma StuckExactly(cfg: Config, w: World, i: nat, r: nat)
    requires WorldSound(w) && i < |w.downloads| && InWait(w.downloads[i], w.Total(), r)
    ensures Stuck(cfg, w, i, r) <==> Hanging(cfg, w.downloads[i], r)
  {
    if Hanging(cfg, w.downloads[i], r) {
      HangingStuck(cfg, w, i, r);
    } else {
      var s := ServingStepPossible(cfg, w, i, r);
    }
  }

  // ---------- Whole waits ----------

  /** A step that neither serves the waiter nor takes anything from it: checkpoint flushers, jobs that do
      not cancel, hints, prefetch requests, handles opened and released, and all that other Downloads do. */
  ghost predicate Bystander(w: World, i: nat, s: Step) {
    if OnDownload(s) then
      || s.i != i
      || s.FlushWrite? || s.FlushNext? || s.Hint? || s.Promote? || s.Release?
      || (s.RunJob? && i < |w.downloads| && s.k < |w.downloads[i].jobs| && !w.downloads[i].jobs[s.k].CancelLock?)
    else !s.Crash? && (s.Launch? ==> s.o in w.openers && w.openers[s.o] != Marked(i))
  }

  /** A hint may start one more goroutine, and a prefetch request wakes the waiter. */
  function Extra(total: nat, s: Step): nat {
    if s.Hint? then 8 * total + 4 else if s.Promote? then 1 else 0
  }

  /** Nothing differs that a wait depends on. */
  predicate SameForWait(d: Download, e: Download) {
    e == d.(openCount := e.openCount, jobs := e.jobs, checkpoints := e.checkpoints)
  }

  lemma SameMeasure(d: Download, e: Download, total: nat, r: nat)
    requires InWait(d, total, r) && SameForWait(d, e) && Sound(e, total)
    ensures InWait(e, total, r) && Measure(e, total, r) == Measure(d, total, r)
  {
  }

  lemma SpawnWaits(d: Download, total: nat, r: nat, offset: nat)
    requires InWait(d, total, r)
    ensures InWait(Spawn(d, offset, false), total, r)
  {
    SpawnSound(d, total, offset, false);
    assert forall g | g in Spawn(d, offset, false).workers :: g in d.workers || g == d.nextId + 1;
  }

  lemma SpawnMeasure(d: Download, total: nat, r: nat, offset: nat)
    requires InWait(d, total, r)
    ensures Measure(Spawn(d, offset, false), total, r) <= Measure(d, total, r) + 8 * total + 4
  {
    var e := Spawn(d, offset, false);
    assert d.nextId + 1 !in d.workers;
    WorkUpdate(d.workers, total, d.nextId + 1, Worker(offset, offset, false, false, Ready));
    assert forall g | g in d.workers :: g in e.workers && e.workers[g] == d.workers[g];
    ServedKept(d, e, total, r);
    assert e.readers == d.readers && e.ranges == d.ranges;
  }

  lemma HintMeasure(d: Download, total: nat, r: nat, offset: nat)
    requires InWait(d, total, r)
    ensures var e := HintAt(d, offset);
      InWait(e, total, r) && Measure(e, total, r) <= Measure(d, total, r) + 8 * total + 4
  {
    SpawnWaits(d, total, r, offset);
    SpawnMeasure(d, total, r, offset);
  }

  lemma PromoteMeasure(d: Download, total: nat, r: nat)
    requires InWait(d, total, r)
    ensures var e := Broadcast(d.(prefetch := true));
      InWait(e, total, r) && Measure(e, total, r) <= Measure(d, total, r) + 1
  {
    BroadcastSound(d.(prefetch := true), total);
    ServedKept(d, Broadcast(d.(prefetch := true)), total, r);
  }

  lemma BystanderOn(cfg: Config, w: World, i: nat, r: nat, s: Step)
    requires WorldSound(w) && i < |w.downloads| && InWait(w.downloads[i], w.Total(), r)
    requires OnDownload(s) && s.i == i && s in Possible(cfg, w) && Bystander(w, i, s)
    ensures var e := Stepped(cfg, w, s);
      InWait(e, w.Total(), r) && Measure(e, w.Total(), r) <= Measure(w.downloads[i], w.Total(), r) + Extra(w.Total(), s)
  {
    var d, total := w.downloads[i], w.Total();
    if s.Hint? {
      HintMeasure(d, total, r, s.offset);
    } else if s.Promote? {
      PromoteMeasure(d, total, r);
    } else {
      StepSound(cfg, w, s);
      assert SameForWait(d, Stepped(cfg, w, s));
      SameMeasure(d, Stepped(cfg, w, s), total, r);
    }
  }

  /** The wait goes on through a bystander's step, and the work left grows by no more than it brought. */
  lemma BystanderStep(cfg: Config, w: World, i: nat, r: nat, s: Step)
    requires WorldSound(w) && i < |w.downloads| && InWait(w.downloads[i], w.Total(), r)
    requires s in Possible(cfg, w) && Bystander(w, i, s)
    ensures var v := After(cfg, w, s);
      && v.remote == w.remote && i < |v.downloads| && InWait(v.downloads[i], w.Total(), r)
      && Measure(v.downloads[i], w.Total(), r) <= Measure(w.downloads[i], w.Total(), r) + Extra(w.Total(), s)
  {
    if OnDownload(s) {
      AfterOn(cfg, w, s);
      StepIndex(cfg, w, s);
      if s.i == i {
        BystanderOn(cfg, w, i, r, s);
      }
    } else {
      StepWorldSound(cfg, w, s);
      OpenerBystander(cfg, w, i, s);
      SameMeasure(w.downloads[i], After(cfg, w, s).downloads[i], w.Total(), r);
    }
  }

  lemma OpenerBystander(cfg: Config, w: World, i: nat, s: Step)
    requires i < |w.downloads| && s in Possible(cfg, w) && Bystander(w, i, s) && !OnDownload(s)
    ensures var v := After(cfg, w, s);
      v.remote == w.remote && i < |v.downloads| && SameForWait(w.downloads[i], v.downloads[i])
  {
  }

  /** A run during which the reader still waits before every step, and every step serves it or belongs to
      a bystander. */
  ghost predicate WaitingRun(cfg: Config, w: World, i: nat, r: nat, steps: seq<Step>)
    decreases |steps|
  {
    steps != [] ==>
      && i < |w.downloads| && InWait(w.downloads[i], w.Total(), r)
      && steps[0] in Possible(cfg, w) && (Serves(w, i, r, steps[0]) || Bystander(w, i, steps[0]))
      && WaitingRun(cfg, After(cfg, w, steps[0]), i, r, steps[1..])
  }

  /** How many steps of the run served the waiter. */
  ghost function ServingSteps(cfg: Config, w: World, i: nat, r: nat, steps: seq<Step>): nat
    requires WaitingRun(cfg, w, i, r, steps)
    decreases |steps|
  {
    if steps == [] then 0
    else (if Serves(w, i, r, steps[0]) then 1 else 0) + ServingSteps(cfg, After(cfg, w, steps[0]), i, r, steps[1..])
  }

  function Extras(total: nat, steps: seq<Step>): nat {
    if steps == [] then 0 else Extra(total, steps[0]) + Extras(total, steps[1..])
  }

  lemma WaitStep(cfg: Config, w: World, i: nat, r: nat, s: Step)
    requires WorldSound(w) && i < |w.downloads| && InWait(w.downloads[i], w.Total(), r)
    requires s in Possible(cfg, w) && (Serves(w, i, r, s) || Bystander(w, i, s))
    ensures var v := After(cfg, w, s);
      && v.remote == w.remote && i < |v.downloads|
      && (|| (r in v.downloads[i].readers && v.downloads[i].readers[r].Granted?)
          || (InWait(v.downloads[i], w.Total(), r)
              && Measure(v.downloads[i], w.Total(), r) + (if Serves(w, i, r, s) then 1 else 0)
                 <= Measure(w.downloads[i], w.Total(), r) + Extra(w.Total(), s)))
  {
    if Serves(w, i, r, s) {
      ServingStep(cfg, w, i, r, s);
      AfterOn(cfg, w, s);
    } else {
      BystanderStep(cfg, w, i, r, s);
    }
  }

  /** The wait ends: whatever bystanders do meanwhile, and whatever the limit, it takes at most `Measure` serving
      steps, and some more for every hint and prefetch request. As long as it lasts, the reader waits; it can
      only end with the read granted. */
  lemma {:induction false} WaitEnds(cfg: Config, w: World, i: nat, r: nat, steps: seq<Step>)
    requires WaitingRun(cfg, w, i, r, steps) && WorldSound(w)
    requires i < |w.downloads| && InWait(w.downloads[i], w.Total(), r)
    ensures ServingSteps(cfg, w, i, r, steps) <= Measure(w.downloads[i], w.Total(), r) + Extras(w.Total(), steps)
    ensures IsRun(cfg, w, steps) && i < |EndOf(cfg, w, steps).downloads|
    ensures var e := EndOf(cfg, w, steps).downloads[i];
      InWait(e, w.Total(), r) || (r in e.readers && e.readers[r].Granted?)
    decreases |steps|
  {
    if steps != [] {
      WaitStep(cfg, w, i, r, steps[0]);
      StepWorldSound(cfg, w, steps[0]);
      var v := After(cfg, w, steps[0]);
      if InWait(v.downloads[i], w.Total(), r) {
        WaitEnds(cfg, v, i, r, steps[1..]);
      } else {
        assert steps[1..] == [];
      }
    }
  }

  /** A run after which no step can serve the reader any more has granted the read, or it hangs. */
  lemma WaitGranted(cfg: Config, w: World, i: nat, r: nat, steps: seq<Step>)
    requires WaitingRun(cfg, w, i, r, steps) && WorldSound(w)
    requires i < |w.downloads| && InWait(w.downloads[i], w.Total(), r) && IsRun(cfg, w, steps)
    requires Stuck(cfg, EndOf(cfg, w, steps), i, r)
    ensures var v := EndOf(cfg, w, steps);
      i < |v.downloads| && r in v.downloads[i].readers
      && (v.downloads[i].readers[r].Granted? || Hanging(cfg, v.downloads[i], r))
  {
    WaitEnds(cfg, w, i, r, steps);
    RunSound(cfg, w, steps);
    RemoteFixed(cfg, w, steps);
    var v := EndOf(cfg, w, steps);
    if InWait(v.downloads[i], v.Total(), r) {
      StuckExactly(cfg, v, i, r);
    }
  }
}
