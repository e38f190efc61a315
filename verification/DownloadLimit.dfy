/** What the read-ahead limit does to a wait: when a sole reader's read is granted on every run, and when on
    none, decided before the call. */
module DownloadLimit {
  import opened Basics
  import opened Ranges
  import opened Downloads
  import opened DownloadInvariant
  import opened DownloadSafety
  import opened DownloadWait

  // ---------- Bystanders ----------

  /** What a bystander does to the Download of the waiter. */
  ghost predicate Touched(d: Download, e: Download, s: Step, i: nat) {
    if OnDownload(s) && s.i == i && s.Hint? then e == HintAt(d, s.offset)
    else if OnDownload(s) && s.i == i && s.Promote? then e == Broadcast(d.(prefetch := true))
    else SameForWait(d, e)
  }

  lemma BystanderTouches(cfg: Config, w: World, i: nat, s: Step)
    requires i < |w.downloads| && s in Possible(cfg, w) && Bystander(w, i, s)
    ensures var v := After(cfg, w, s); i < |v.downloads| && Touched(w.downloads[i], v.downloads[i], s, i)
  {
    if OnDownload(s) {
      AfterOn(cfg, w, s);
      StepIndex(cfg, w, s);
      assert s.i == i ==> After(cfg, w, s).downloads[i] == Stepped(cfg, w, s);
    } else {
      OpenerBystander(cfg, w, i, s);
    }
  }

  /** A hint or a prefetch request for this Download. */
  predicate Helps(i: nat, s: Step) {
    (s.Hint? || s.Promote?) && s.i == i
  }

  // ---------- Waits that cannot hang ----------

  predicate Unlimited(cfg: Config, dl: Download) {
    cfg.readAhead == 0 || cfg.idleTimeout || dl.prefetch
  }

  /** A goroutine that will never be throttled: it is not sequential, or about to leave. */
  predicate Spent(total: nat, w: Worker) {
    !w.sequential || w.phase.Leaving? || (w.phase.Ready? && w.pos >= total)
  }

  ghost predicate AllSpent(dl: Download, total: nat) {
    forall g | g in dl.workers :: Spent(total, dl.workers[g])
  }

  /** No limit, or none that the file reaches, or a goroutine on its way through the range, or only goroutines
      that leave, so that the reader starts its own. */
  ghost predicate Safe(cfg: Config, dl: Download, total: nat, r: nat) {
    || Unlimited(cfg, dl) || total <= dl.lastReadPos + cfg.readAhead
    || (r in dl.readers && Served(dl, total, dl.readers[r])) || AllSpent(dl, total)
  }

  lemma ServedNotThrottled(cfg: Config, dl: Download, total: nat, r: nat, g: nat)
    requires InWait(dl, total, r) && !dl.readers[r].woken && g in dl.workers
    requires var reader := dl.readers[r];
      Server(dl.workers[g], dl.ranges, reader.offset, ReadEnd(reader.offset, reader.size, total))
    ensures !Throttled(cfg, dl, dl.workers[g])
  {
    var reader, worker := dl.readers[r], dl.workers[g];
    var end := ReadEnd(reader.offset, reader.size, total);
    assert WorkerSound(dl.ranges, total, worker) && SleeperSound(dl.ranges, total, Busy(dl), reader);
    if end <= worker.pos {
      PastEnd(dl.ranges, total, worker, reader.offset, end);
    }
  }

  lemma SafeNotHanging(cfg: Config, dl: Download, total: nat, r: nat)
    requires InWait(dl, total, r) && Safe(cfg, dl, total, r)
    ensures !Hanging(cfg, dl, r)
  {
    if Hanging(cfg, dl, r) {
      var reader := dl.readers[r];
      assert SleeperSound(dl.ranges, total, Busy(dl), reader);
      var h :| h in dl.workers;
      assert WorkerSound(dl.ranges, total, dl.workers[h]);
      if Served(dl, total, reader) {
        var g :| g in dl.workers
          && Server(dl.workers[g], dl.ranges, reader.offset, ReadEnd(reader.offset, reader.size, total));
        ServedNotThrottled(cfg, dl, total, r, g);
      }
    }
  }

  lemma SafeBystander(cfg: Config, d: Download, e: Download, total: nat, r: nat, s: Step, i: nat)
    requires InWait(d, total, r) && Touched(d, e, s, i) && Safe(cfg, d, total, r)
    ensures Safe(cfg, e, total, r)
  {
    if Served(d, total, d.readers[r]) {
      assert d.nextId + 1 !in d.workers;
      ServedKept(d, e, total, r);
    }
  }

  /** What a serving step does besides serving. */
  lemma ServingFrame(cfg: Config, w: World, i: nat, r: nat, s: Step)
    requires OnDownload(s) && s in Possible(cfg, w) && Serves(w, i, r, s)
    requires i < |w.downloads| && InWait(w.downloads[i], w.Total(), r)
    ensures var d, e := w.downloads[i], Stepped(cfg, w, s);
      e.lastReadPos == d.lastReadPos && e.prefetch == d.prefetch
  {
  }

  lemma SpentServing(cfg: Config, w: World, i: nat, r: nat, s: Step)
    requires OnDownload(s) && s in Possible(cfg, w) && Serves(w, i, r, s) && !s.Recheck?
    requires i < |w.downloads| && InWait(w.downloads[i], w.Total(), r) && AllSpent(w.downloads[i], w.Total())
    ensures AllSpent(Stepped(cfg, w, s), w.Total())
  {
    assert WorkerSound(w.downloads[i].ranges, w.Total(), w.downloads[i].workers[s.g]);
  }

  lemma SafeServing(cfg: Config, w: World, i: nat, r: nat, s: Step)
    requires OnDownload(s) && s in Possible(cfg, w) && Serves(w, i, r, s)
    requires i < |w.downloads| && InWait(w.downloads[i], w.Total(), r) && Safe(cfg, w.downloads[i], w.Total(), r)
    ensures var e := Stepped(cfg, w, s); InWait(e, w.Total(), r) ==> Safe(cfg, e, w.Total(), r)
  {
    var d, e := w.downloads[i], Stepped(cfg, w, s);
    ServingFrame(cfg, w, i, r, s);
    ServingStep(cfg, w, i, r, s);
    if AllSpent(d, w.Total()) && InWait(e, w.Total(), r) {
      if s.Recheck? {
        SpentRecheck(d, w.Total(), r);
      } else {
        SpentServing(cfg, w, i, r, s);
      }
    }
  }

  lemma SpentRecheck(dl: Download, total: nat, r: nat)
    requires InWait(dl, total, r) && dl.readers[r].woken && AllSpent(dl, total)
    requires InWait(RecheckWait(dl, total, r), total, r)
    ensures var e := RecheckWait(dl, total, r); AllSpent(e, total) || Served(e, total, e.readers[r])
  {
    RecheckProgress(dl, total, r);
    assert dl.workers != map[] ==> RecheckWait(dl, total, r).workers == dl.workers;
  }

  lemma SafeStep(cfg: Config, w: World, i: nat, r: nat, s: Step)
    requires WorldSound(w) && i < |w.downloads| && InWait(w.downloads[i], w.Total(), r)
    requires s in Possible(cfg, w) && (Serves(w, i, r, s) || Bystander(w, i, s))
    requires Safe(cfg, w.downloads[i], w.Total(), r)
    ensures var v := After(cfg, w, s);
      v.remote == w.remote && i < |v.downloads|
      && (InWait(v.downloads[i], w.Total(), r) ==> Safe(cfg, v.downloads[i], w.Total(), r))
  {
    WaitStep(cfg, w, i, r, s);
    if Serves(w, i, r, s) {
      SafeServing(cfg, w, i, r, s);
      AfterOn(cfg, w, s);
    } else {
      BystanderTouches(cfg, w, i, s);
      SafeBystander(cfg, w.downloads[i], After(cfg, w, s).downloads[i], w.Total(), r, s, i);
    }
  }

  // ---------- Waits that cannot end ----------

  /** A goroutine that streams on until the limit stops it. */
  predicate Blocker(total: nat, w: Worker) {
    w.sequential && !w.cancelled && !w.phase.Leaving? && (w.phase.Ready? ==> w.pos < total)
  }

  /** The missing byte `x` lies before the start of every goroutine that has not left. */
  ghost predicate Unreached(dl: Download, x: int) {
    !Covers(dl.ranges, x) && forall g | g in dl.workers :: dl.workers[g].phase.Leaving? || x < dl.workers[g].start
  }

  ghost predicate Blocked(dl: Download, total: nat) {
    exists g :: g in dl.workers && Blocker(total, dl.workers[g])
  }

  /** The reader waits for a byte that nobody will stream, and a goroutine that stays keeps it from starting
      its own. */
  ghost predicate Doomed(cfg: Config, dl: Download, total: nat, r: nat, x: int) {
    && InWait(dl, total, r) && !Unlimited(cfg, dl) && !dl.done && dl.lastReadPos + cfg.readAhead < total
    && dl.readers[r].offset <= x < ReadEnd(dl.readers[r].offset, dl.readers[r].size, total)
    && Unreached(dl, x) && Blocked(dl, total)
  }

  lemma DoomedBystander(cfg: Config, d: Download, e: Download, total: nat, r: nat, s: Step, i: nat, x: int)
    requires Doomed(cfg, d, total, r, x) && Touched(d, e, s, i) && InWait(e, total, r)
    requires OnDownload(s) ==> !Helps(i, s)
    ensures Doomed(cfg, e, total, r, x)
  {
    assert e.workers == d.workers && e.readers == d.readers;
  }

  /** A goroutine that moves on without leaving, and the set grows only behind its start. */
  lemma DoomedReplaced(cfg: Config, d: Download, e: Download, total: nat, r: nat, g: nat, x: int)
    requires Doomed(cfg, d, total, r, x) && g in d.workers && g in e.workers
    requires e.workers == d.workers[g := e.workers[g]]
    requires InWait(e, total, r) && e.lastReadPos == d.lastReadPos && e.prefetch == d.prefetch && !e.done
    requires e.readers[r].offset == d.readers[r].offset && e.readers[r].size == d.readers[r].size
    requires !Covers(e.ranges, x) && e.workers[g].start == d.workers[g].start
    requires d.workers[g].phase.Leaving? ==> e.workers[g].phase.Leaving?
    requires Blocker(total, d.workers[g]) ==> Blocker(total, e.workers[g])
    ensures Doomed(cfg, e, total, r, x)
  {
    var h :| h in d.workers && Blocker(total, d.workers[h]);
    assert h in e.workers && Blocker(total, e.workers[h]);
  }

  lemma DoomedCommit(cfg: Config, d: Download, total: nat, r: nat, g: nat, timeUp: bool, x: int)
    requires Doomed(cfg, d, total, r, x) && g in d.workers && d.workers[g].phase.WroteChunk?
    ensures Doomed(cfg, CommitChunk(d, total, g, timeUp), total, r, x)
  {
    var e := CommitChunk(d, total, g, timeUp);
    CommitProgress(d, total, r, g, timeUp);
    AddedView(d.ranges, d.workers[g].pos, d.workers[g].phase.n);
    assert WorkerSound(d.ranges, total, d.workers[g]) && x < d.workers[g].start;
    DoomedReplaced(cfg, d, e, total, r, g, x);
  }

  lemma DoomedExit(cfg: Config, d: Download, total: nat, r: nat, g: nat, x: int)
    requires Doomed(cfg, d, total, r, x) && g in d.workers && d.workers[g].phase.Leaving?
    ensures Doomed(cfg, ExitWorker(d, total, g), total, r, x)
  {
    var e := ExitWorker(d, total, g);
    ExitProgress(d, total, r, g);
    var h :| h in d.workers && Blocker(total, d.workers[h]);
    assert h in d.workers - {g};
    assert e.workers == d.workers - {g} && Blocker(total, e.workers[h]);
  }

  lemma DoomedRecheck(cfg: Config, d: Download, total: nat, r: nat, x: int)
    requires Doomed(cfg, d, total, r, x) && d.readers[r].woken
    ensures Doomed(cfg, RecheckWait(d, total, r), total, r, x)
  {
    RecheckProgress(d, total, r);
    var h :| h in d.workers && Blocker(total, d.workers[h]);
    assert RecheckWait(d, total, r).workers == d.workers;
  }

  lemma DoomedPhase(cfg: Config, w: World, i: nat, r: nat, s: Step, x: int)
    requires OnDownload(s) && s in Possible(cfg, w) && Serves(w, i, r, s) && !s.Recheck? && !s.Commit? && !s.Exit?
    requires i < |w.downloads| && Doomed(cfg, w.downloads[i], w.Total(), r, x)
    ensures Doomed(cfg, Stepped(cfg, w, s), w.Total(), r, x)
  {
    var d, e, total := w.downloads[i], Stepped(cfg, w, s), w.Total();
    ServingPhase(cfg, w, i, r, s);
    assert WorkerSound(d.ranges, total, d.workers[s.g]);
    assert e == SetPhase(d, s.g, e.workers[s.g].phase);
    DoomedReplaced(cfg, d, e, total, r, s.g, x);
  }

  lemma DoomedStep(cfg: Config, w: World, i: nat, r: nat, s: Step, x: int)
    requires WorldSound(w) && i < |w.downloads| && Doomed(cfg, w.downloads[i], w.Total(), r, x)
    requires s in Possible(cfg, w)
    requires Serves(w, i, r, s) || (Bystander(w, i, s) && !(OnDownload(s) && Helps(i, s)))
    ensures var v := After(cfg, w, s);
      v.remote == w.remote && i < |v.downloads| && Doomed(cfg, v.downloads[i], w.Total(), r, x)
  {
    var d, total := w.downloads[i], w.Total();
    if Serves(w, i, r, s) {
      AfterOn(cfg, w, s);
      if s.Recheck? {
        DoomedRecheck(cfg, d, total, r, x);
      } else if s.Commit? {
        DoomedCommit(cfg, d, total, r, s.g, s.timeUp, x);
      } else if s.Exit? {
        DoomedExit(cfg, d, total, r, s.g, x);
      } else {
        DoomedPhase(cfg, w, i, r, s, x);
      }
    } else {
      BystanderStep(cfg, w, i, r, s);
      BystanderTouches(cfg, w, i, s);
      DoomedBystander(cfg, d, After(cfg, w, s).downloads[i], total, r, s, i, x);
    }
  }

  // ---------- Whole runs ----------

  /** Nobody helps by a hint or a prefetch request. */
  predicate Unhelped(i: nat, steps: seq<Step>) {
    forall s | s in steps :: !(OnDownload(s) && Helps(i, s))
  }

  ghost predicate Grants(cfg: Config, w: World, i: nat, r: nat, steps: seq<Step>) {
    && IsRun(cfg, w, steps)
    && var v := EndOf(cfg, w, steps);
      i < |v.downloads| && r in v.downloads[i].readers && v.downloads[i].readers[r].Granted?
  }

  /** In a doomed wait the read is granted on no run. */
  lemma {:induction false} DoomedRun(cfg: Config, w: World, i: nat, r: nat, steps: seq<Step>, x: int)
    requires WorldSound(w) && i < |w.downloads| && Doomed(cfg, w.downloads[i], w.Total(), r, x)
    requires WaitingRun(cfg, w, i, r, steps) && Unhelped(i, steps)
    ensures !Grants(cfg, w, i, r, steps)
    decreases |steps|
  {
    if steps != [] {
      assert steps[0] in steps && forall s | s in steps[1..] :: s in steps;
      DoomedStep(cfg, w, i, r, steps[0], x);
      StepWorldSound(cfg, w, steps[0]);
      DoomedRun(cfg, After(cfg, w, steps[0]), i, r, steps[1..], x);
    }
  }

  lemma {:induction false} SafeRun(cfg: Config, w: World, i: nat, r: nat, steps: seq<Step>)
    requires WorldSound(w) && i < |w.downloads| && InWait(w.downloads[i], w.Total(), r)
    requires Safe(cfg, w.downloads[i], w.Total(), r) && WaitingRun(cfg, w, i, r, steps) && IsRun(cfg, w, steps)
    ensures var v := EndOf(cfg, w, steps);
      && i < |v.downloads|
      && (InWait(v.downloads[i], w.Total(), r) ==> Safe(cfg, v.downloads[i], w.Total(), r))
    decreases |steps|
  {
    if steps != [] {
      var v := After(cfg, w, steps[0]);
      SafeStep(cfg, w, i, r, steps[0]);
      StepWorldSound(cfg, w, steps[0]);
      if InWait(v.downloads[i], w.Total(), r) {
        SafeRun(cfg, v, i, r, steps[1..]);
      } else {
        assert steps[1..] == [];
      }
    }
  }

  /** In a safe wait every run that cannot go on has granted the read. */
  lemma SafeGranted(cfg: Config, w: World, i: nat, r: nat, steps: seq<Step>)
    requires WorldSound(w) && i < |w.downloads| && InWait(w.downloads[i], w.Total(), r)
    requires Safe(cfg, w.downloads[i], w.Total(), r) && WaitingRun(cfg, w, i, r, steps) && IsRun(cfg, w, steps)
    requires Stuck(cfg, EndOf(cfg, w, steps), i, r)
    ensures Grants(cfg, w, i, r, steps)
  {
    WaitGranted(cfg, w, i, r, steps);
    WaitEnds(cfg, w, i, r, steps);
    SafeRun(cfg, w, i, r, steps);
    var v := EndOf(cfg, w, steps);
    if InWait(v.downloads[i], w.Total(), r) {
      SafeNotHanging(cfg, v.downloads[i], w.Total(), r);
    }
  }

  /** A safe wait can always be served, and stays safe or ends. */
  lemma SafeServingStep(cfg: Config, w: World, i: nat, r: nat) returns (s: Step)
    requires WorldSound(w) && i < |w.downloads| && InWait(w.downloads[i], w.Total(), r)
    requires Safe(cfg, w.downloads[i], w.Total(), r)
    ensures s in Possible(cfg, w) && Serves(w, i, r, s) && !(OnDownload(s) && Helps(i, s))
    ensures var v := After(cfg, w, s);
      && WorldSound(v) && i < |v.downloads|
      && (if InWait(v.downloads[i], v.Total(), r)
          then Safe(cfg, v.downloads[i], v.Total(), r)
               && Measure(v.downloads[i], v.Total(), r) < Measure(w.downloads[i], w.Total(), r)
          else r in v.downloads[i].readers && v.downloads[i].readers[r].Granted?)
  {
    SafeNotHanging(cfg, w.downloads[i], w.Total(), r);
    s := ServingStepPossible(cfg, w, i, r);
    WaitStep(cfg, w, i, r, s);
    SafeStep(cfg, w, i, r, s);
    StepWorldSound(cfg, w, s);
  }

  /** And such a run exists, without any help. */
  lemma {:induction false} SafeGrantingRun(cfg: Config, w: World, i: nat, r: nat) returns (steps: seq<Step>)
    requires WorldSound(w) && i < |w.downloads| && InWait(w.downloads[i], w.Total(), r)
    requires Safe(cfg, w.downloads[i], w.Total(), r)
    ensures WaitingRun(cfg, w, i, r, steps) && Unhelped(i, steps) && Grants(cfg, w, i, r, steps)
    decreases Measure(w.downloads[i], w.Total(), r)
  {
    var s := SafeServingStep(cfg, w, i, r);
    var v := After(cfg, w, s);
    var rest := [];
    if InWait(v.downloads[i], v.Total(), r) {
      rest := SafeGrantingRun(cfg, v, i, r);
    } else {
      GrantedNow(cfg, v, i, r);
    }
    steps := GrantingAfter(cfg, w, i, r, s, rest);
  }

  lemma GrantedNow(cfg: Config, w: World, i: nat, r: nat)
    requires i < |w.downloads| && r in w.downloads[i].readers && w.downloads[i].readers[r].Granted?
    ensures WaitingRun(cfg, w, i, r, []) && Unhelped(i, []) && Grants(cfg, w, i, r, [])
  {
    assert EndOf(cfg, w, []) == w;
  }

  lemma GrantingAfter(cfg: Config, w: World, i: nat, r: nat, s: Step, rest: seq<Step>) returns (steps: seq<Step>)
    requires i < |w.downloads| && InWait(w.downloads[i], w.Total(), r) && s in Possible(cfg, w)
    requires Serves(w, i, r, s) && !(OnDownload(s) && Helps(i, s))
    requires var v := After(cfg, w, s);
      WaitingRun(cfg, v, i, r, rest) && Unhelped(i, rest) && Grants(cfg, v, i, r, rest)
    ensures WaitingRun(cfg, w, i, r, steps) && Unhelped(i, steps) && Grants(cfg, w, i, r, steps)
  {
    steps := [s] + rest;
    assert steps[1..] == rest;
  }

  // ---------- The call ----------

  predicate CancelledAtMost(x: Worker, y: Worker) {
    y == x || y == x.(cancelled := true)
  }

  lemma FarBehindWorkers(d: Download, offset: nat)
    ensures var e := CancelFarBehind(d, offset);
      e.workers.Keys == d.workers.Keys && forall g | g in d.workers :: CancelledAtMost(d.workers[g], e.workers[g])
  {
  }

  lemma RedirectedWorkers(d: Download, offset: nat)
    requires d.nextId + 1 !in d.workers
    ensures var e := Redirected(d, offset);
      && (forall g | g in e.workers :: if g in d.workers then CancelledAtMost(d.workers[g], e.workers[g])
          else e.workers[g].phase.Ready?)
      && (if HasWorkerNear(d, offset) then e.workers.Keys == d.workers.Keys
          else d.nextId + 1 in e.workers && e.workers[d.nextId + 1].phase.Ready?)
      && e == d.(workers := e.workers, nextId := e.nextId)
  {
  }

  /** What the entry into a wait that must block leaves: the goroutines as they were, cancelled or not,
      or a new one ready to stream. */
  lemma EnterBlocked(dl: Download, total: nat, r: nat, offset: nat, size: nat)
    requires dl.readers == map[] && !dl.err && !dl.done && offset < total
    requires !CoversRange(dl.ranges, offset, ReadEnd(offset, size, total)) && dl.nextId + 1 !in dl.workers
    ensures var e := EnterWait(dl, total, r, offset, size);
      && e.readers == map[r := Waiting(offset, size, false)] && !e.err && !e.done && e.prefetch == dl.prefetch
      && e.lastReadPos == Max(dl.lastReadPos, ReadEnd(offset, size, total))
      && (forall g | g in e.workers :: if g in dl.workers then CancelledAtMost(dl.workers[g], e.workers[g])
          else e.workers[g].phase.Ready?)
      && (HasWorkerNear(dl, offset) ==> e.workers.Keys == dl.workers.Keys)
      && (!HasWorkerNear(dl, offset) ==> dl.nextId + 1 in e.workers && e.workers[dl.nextId + 1].phase.Ready?)
  {
    var d := Broadcast(dl.(lastReadPos := Max(dl.lastReadPos, ReadEnd(offset, size, total))));
    assert d == dl.(lastReadPos := d.lastReadPos);
    RedirectedWorkers(d, offset);
    FarBehindWorkers(Redirected(d, offset), offset);
    assert HasWorkerNear(d, offset) <==> HasWorkerNear(dl, offset);
  }

  lemma EnterWaits(dl: Download, total: nat, r: nat, offset: nat, size: nat)
    requires Sound(dl, total) && FaultFree(dl, total) && dl.readers == map[] && !dl.done && offset < total
    requires !CoversRange(dl.ranges, offset, ReadEnd(offset, size, total))
    ensures InWait(EnterWait(dl, total, r, offset, size), total, r)
  {
    assert dl.nextId + 1 !in dl.workers;
    EnterBlocked(dl, total, r, offset, size);
    assert Sound(EnterWait(dl, total, r, offset, size), total) by {
      EnterSound(dl, total, r, offset, size);
    }
    WorkersFine(dl, EnterWait(dl, total, r, offset, size), total);
  }

  lemma WorkersFine(dl: Download, e: Download, total: nat)
    requires FaultFree(dl, total) && !e.err
    requires forall g | g in e.workers :: if g in dl.workers then CancelledAtMost(dl.workers[g], e.workers[g])
        else e.workers[g].phase.Ready?
    ensures FaultFree(e, total)
  {
    forall g | g in e.workers ensures !e.workers[g].phase.Failing? {
      if g in dl.workers {
        assert !dl.workers[g].phase.Failing?;
      }
    }
  }

  /** A goroutine of which it is certain, before the call, what it does for the range: it has left; it is
      sequential and not cancelled; or it is not sequential and starts behind a missing byte of the range, or
      is sure to reach the end of the range. */
  ghost predicate Plain(w: Worker, ranges: Intervals, offset: nat, end: int) {
    || w.phase.Leaving?
    || (w.sequential && !w.cancelled)
    || (!w.sequential && !CoversRange(ranges, offset, Min(w.start, end)))
    || (!w.sequential && !w.cancelled && end <= w.start + CHUNK_SIZE)
  }

  ghost predicate AllPlain(dl: Download, offset: nat, end: int) {
    forall g | g in dl.workers :: Plain(dl.workers[g], dl.ranges, offset, end)
  }

  /** The goroutine that the call starts, if it starts one, is sure to reach the end of the range. */
  predicate StartsServer(dl: Download, offset: nat, end: int) {
    dl.workers == map[] || dl.openCount == 1 || end <= offset + CHUNK_SIZE
  }

  /** The call that hangs. The end of the read becomes known first; with the limit counted from there, some
      goroutine stops before the end of the file. One that is near keeps the reader from starting its own, and
      a missing byte of the range lies before all that have not left. */
  ghost predicate DoomedCall(cfg: Config, dl: Download, total: nat, offset: nat, size: nat) {
    var end := ReadEnd(offset, size, total);
    && !Unlimited(cfg, dl) && HasWorkerNear(dl, offset)
    && Max(dl.lastReadPos, end) + cfg.readAhead < total && Blocked(dl, total)
    && exists x :: offset <= x < end && Unreached(dl, x)
  }

  /** If nobody serves the range, its first missing byte is out of reach. */
  lemma UnservedByte(dl: Download, total: nat, reader: Reader) returns (x: int)
    requires reader.offset < total && !Served(dl, total, reader)
    requires AllPlain(dl, reader.offset, ReadEnd(reader.offset, reader.size, total))
    ensures reader.offset <= x < ReadEnd(reader.offset, reader.size, total) && Unreached(dl, x)
  {
    var offset, end := reader.offset, ReadEnd(reader.offset, reader.size, total);
    FirstHoleFound(dl.ranges, offset, end);
    x := FirstHole(dl.ranges, offset, end);
    forall g | g in dl.workers ensures dl.workers[g].phase.Leaving? || x < dl.workers[g].start {
      assert Plain(dl.workers[g], dl.ranges, offset, end);
      assert !Server(dl.workers[g], dl.ranges, offset, end);
    }
  }

  /** With a goroutine near, the call starts none, and cancels only some that are not sequential. */
  lemma EnterNear(dl: Download, total: nat, r: nat, offset: nat, size: nat)
    requires dl.readers == map[] && !dl.err && !dl.done && offset < total && HasWorkerNear(dl, offset)
    requires !CoversRange(dl.ranges, offset, ReadEnd(offset, size, total))
    ensures var e := EnterWait(dl, total, r, offset, size);
      && e.ranges == dl.ranges && e.workers == CancelFarBehind(dl, offset).workers
  {
    var d := Broadcast(dl.(lastReadPos := Max(dl.lastReadPos, ReadEnd(offset, size, total))));
    assert d == dl.(lastReadPos := d.lastReadPos);
    assert HasWorkerNear(d, offset);
    assert Redirected(d, offset) == d;
    assert CancelFarBehind(d, offset).workers == CancelFarBehind(dl, offset).workers;
  }

  /** What is cancelled as far behind does not matter for the range. */
  lemma FarBehindPlain(ranges: Intervals, total: nat, w: Worker, offset: nat, end: int)
    requires WorkerSound(ranges, total, w) && Plain(w, ranges, offset, end) && FarBehind(w, offset) && offset < end
    ensures Plain(w.(cancelled := true), ranges, offset, end)
  {
  }

  lemma NearPlain(dl: Download, total: nat, offset: nat, end: int)
    requires Sound(dl, total) && AllPlain(dl, offset, end) && offset < end
    ensures AllPlain(CancelFarBehind(dl, offset), offset, end)
  {
    var e := CancelFarBehind(dl, offset);
    forall g | g in e.workers ensures Plain(e.workers[g], e.ranges, offset, end) {
      assert Plain(dl.workers[g], dl.ranges, offset, end) && WorkerSound(dl.ranges, total, dl.workers[g]);
      if FarBehind(dl.workers[g], offset) {
        FarBehindPlain(dl.ranges, total, dl.workers[g], offset, end);
      }
    }
  }

  /** Cancelling those far behind changes neither who blocks nor who reaches a byte. */
  lemma NearSame(dl: Download, total: nat, offset: nat, x: int)
    ensures var e := CancelFarBehind(dl, offset);
      && (Blocked(e, total) <==> Blocked(dl, total)) && (AllSpent(e, total) <==> AllSpent(dl, total))
      && (Unreached(e, x) <==> Unreached(dl, x))
  {
    var e := CancelFarBehind(dl, offset);
    assert e.workers.Keys == dl.workers.Keys;
    if g :| g in dl.workers && Blocker(total, dl.workers[g]) {
      assert g in e.workers && Blocker(total, e.workers[g]);
    }
    if g :| g in e.workers && Blocker(total, e.workers[g]) {
      assert g in dl.workers && Blocker(total, dl.workers[g]);
    }
    forall g | g in dl.workers ensures Spent(total, e.workers[g]) <==> Spent(total, dl.workers[g]) {
    }
  }

  /** Without a goroutine near, the one that the call starts serves the range. */
  lemma EnterFresh(dl: Download, total: nat, r: nat, offset: nat, size: nat)
    requires dl.readers == map[] && !dl.err && !dl.done && offset < total && !HasWorkerNear(dl, offset)
    requires !CoversRange(dl.ranges, offset, ReadEnd(offset, size, total))
    requires StartsServer(dl, offset, ReadEnd(offset, size, total))
    ensures var e := EnterWait(dl, total, r, offset, size);
      r in e.readers && Served(e, total, e.readers[r])
  {
    var end := ReadEnd(offset, size, total);
    var d := Broadcast(dl.(lastReadPos := Max(dl.lastReadPos, end)));
    assert d == dl.(lastReadPos := d.lastReadPos);
    assert !HasWorkerNear(d, offset);
    var h := dl.nextId + 1;
    var e := EnterWait(dl, total, r, offset, size);
    assert h in e.workers && Server(e.workers[h], e.ranges, offset, end);
  }

  lemma UnblockedSpent(dl: Download, total: nat, offset: nat, end: int)
    requires FaultFree(dl, total) && Sound(dl, total) && AllPlain(dl, offset, end) && !Blocked(dl, total)
    ensures AllSpent(dl, total)
  {
    forall g | g in dl.workers ensures Spent(total, dl.workers[g]) {
      assert Plain(dl.workers[g], dl.ranges, offset, end) && !Blocker(total, dl.workers[g]);
    }
  }

  /** The state after the call is doomed or safe, and which of them is decided before. */
  lemma EnterDecides(cfg: Config, dl: Download, total: nat, r: nat, offset: nat, size: nat) returns (x: int)
    requires Sound(dl, total) && FaultFree(dl, total) && dl.readers == map[] && !dl.done && offset < total
    requires !CoversRange(dl.ranges, offset, ReadEnd(offset, size, total))
    requires Unlimited(cfg, dl)
      || (AllPlain(dl, offset, ReadEnd(offset, size, total))
          && (HasWorkerNear(dl, offset) || StartsServer(dl, offset, ReadEnd(offset, size, total))))
    ensures var e := EnterWait(dl, total, r, offset, size);
      if DoomedCall(cfg, dl, total, offset, size) then Doomed(cfg, e, total, r, x)
      else InWait(e, total, r) && Safe(cfg, e, total, r)
  {
    var e, end := EnterWait(dl, total, r, offset, size), ReadEnd(offset, size, total);
    assert dl.nextId + 1 !in dl.workers;
    EnterWaits(dl, total, r, offset, size);
    EnterBlocked(dl, total, r, offset, size);
    x := offset;
    if Unlimited(cfg, dl) {
    } else if !HasWorkerNear(dl, offset) {
      EnterFresh(dl, total, r, offset, size);
    } else {
      EnterNear(dl, total, r, offset, size);
      x := NearDecides(cfg, dl, e, total, r, offset, size);
    }
  }

  lemma NearDecides(cfg: Config, dl: Download, e: Download, total: nat, r: nat, offset: nat, size: nat) returns (x: int)
    requires Sound(dl, total) && AllPlain(dl, offset, ReadEnd(offset, size, total)) && HasWorkerNear(dl, offset)
    requires !Unlimited(cfg, dl) && InWait(e, total, r) && e.readers[r].offset == offset && e.readers[r].size == size
    requires e.ranges == dl.ranges && e.workers == CancelFarBehind(dl, offset).workers && e.prefetch == dl.prefetch
    requires !e.done && e.lastReadPos == Max(dl.lastReadPos, ReadEnd(offset, size, total))
    requires !CoversRange(dl.ranges, offset, ReadEnd(offset, size, total)) && FaultFree(dl, total)
    ensures if DoomedCall(cfg, dl, total, offset, size) then Doomed(cfg, e, total, r, x) else Safe(cfg, e, total, r)
  {
    var end := ReadEnd(offset, size, total);
    x := offset;
    if DoomedCall(cfg, dl, total, offset, size) {
      x :| offset <= x < end && Unreached(dl, x);
      NearSame(dl, total, offset, x);
    } else if e.lastReadPos + cfg.readAhead < total && !Served(e, total, e.readers[r]) {
      NearPlain(dl, total, offset, end);
      x := UnservedByte(e, total, e.readers[r]);
      NearSame(dl, total, offset, x);
      UnblockedSpent(dl, total, offset, end);
    }
  }

  /** The exact condition, before the call, of a sole reader whose goroutines are all plain: on no run is the read
      granted, unless somebody helps, if and only if the call is doomed; and otherwise every run that cannot go
      on has granted it. */
  lemma GrantedExactly(cfg: Config, w: World, i: nat, r: nat, offset: nat, size: nat)
    requires WorldSound(w) && i < |w.downloads| && Enter(i, r, offset, size) in Possible(cfg, w)
    requires var dl := w.downloads[i];
      && FaultFree(dl, w.Total()) && dl.readers == map[] && !dl.done && offset < w.Total()
      && !CoversRange(dl.ranges, offset, ReadEnd(offset, size, w.Total()))
    requires var dl, end := w.downloads[i], ReadEnd(offset, size, w.Total());
      || Unlimited(cfg, dl)
      || (AllPlain(dl, offset, end) && (HasWorkerNear(dl, offset) || StartsServer(dl, offset, end)))
    ensures var v := After(cfg, w, Enter(i, r, offset, size));
      && ((forall steps | WaitingRun(cfg, v, i, r, steps) && Unhelped(i, steps) :: !Grants(cfg, v, i, r, steps))
          <==> DoomedCall(cfg, w.downloads[i], w.Total(), offset, size))
      && (!DoomedCall(cfg, w.downloads[i], w.Total(), offset, size) ==>
            forall steps | && WaitingRun(cfg, v, i, r, steps) && IsRun(cfg, v, steps)
                           && Stuck(cfg, EndOf(cfg, v, steps), i, r) ::
              Grants(cfg, v, i, r, steps))
  {
    var s := Enter(i, r, offset, size);
    var v := After(cfg, w, s);
    AfterOn(cfg, w, s);
    StepWorldSound(cfg, w, s);
    var x := EnterDecides(cfg, w.downloads[i], w.Total(), r, offset, size);
    if DoomedCall(cfg, w.downloads[i], w.Total(), offset, size) {
      forall steps | WaitingRun(cfg, v, i, r, steps) && Unhelped(i, steps) ensures !Grants(cfg, v, i, r, steps) {
        DoomedRun(cfg, v, i, r, steps, x);
      }
    } else {
      var granting := SafeGrantingRun(cfg, v, i, r);
      forall steps | WaitingRun(cfg, v, i, r, steps) && IsRun(cfg, v, steps) && Stuck(cfg, EndOf(cfg, v, steps), i, r)
        ensures Grants(cfg, v, i, r, steps)
      {
        SafeGranted(cfg, v, i, r, steps);
      }
    }
  }

  // ---------- Hanging at once ----------

  /** The hang that is there as soon as the call sleeps: no idle timeout is set, some goroutine counts as near
      the offset, so that none is started, and all of them pause beyond what the limit allows once the end of
      this read is known. `GrantedExactly` also decides the calls whose goroutines still stream towards it. */
  lemma HangsExactly(cfg: Config, w: World, i: nat, r: nat, offset: nat, size: nat)
    requires WorldSound(w) && i < |w.downloads| && Enter(i, r, offset, size) in Possible(cfg, w)
    requires var dl := w.downloads[i];
      && FaultFree(dl, w.Total()) && dl.readers == map[] && !dl.done && offset < w.Total()
      && !CoversRange(dl.ranges, offset, ReadEnd(offset, size, w.Total()))
    ensures var dl, v := w.downloads[i], After(cfg, w, Enter(i, r, offset, size));
      Stuck(cfg, v, i, r) <==>
      && !cfg.idleTimeout && cfg.readAhead > 0 && !dl.prefetch && HasWorkerNear(dl, offset)
      && forall g | g in dl.workers ::
           dl.workers[g].phase.Pausing?
           && dl.workers[g].pos > Max(dl.lastReadPos, ReadEnd(offset, size, w.Total())) + cfg.readAhead
  {
    var dl, total, s := w.downloads[i], w.Total(), Enter(i, r, offset, size);
    assert Sound(dl, total);
    var v := After(cfg, w, s);
    AfterOn(cfg, w, s);
    StepWorldSound(cfg, w, s);
    var e := EnterWait(dl, total, r, offset, size);
    assert v.downloads[i] == e;
    EnterWaits(dl, total, r, offset, size);
    assert dl.nextId + 1 !in dl.workers;
    EnterBlocked(dl, total, r, offset, size);
    StuckExactly(cfg, v, i, r);
    HangGoroutines(cfg, dl, e, offset, Max(dl.lastReadPos, ReadEnd(offset, size, total)));
  }

  lemma HangGoroutines(cfg: Config, dl: Download, e: Download, offset: nat, last: int)
    requires !e.err && !e.done && e.prefetch == dl.prefetch && e.lastReadPos == last
    requires HasWorkerNear(dl, offset) ==>
      e.workers.Keys == dl.workers.Keys && forall g | g in dl.workers :: CancelledAtMost(dl.workers[g], e.workers[g])
    requires !HasWorkerNear(dl, offset) ==> dl.nextId + 1 in e.workers && e.workers[dl.nextId + 1].phase.Ready?
    ensures (forall g | g in e.workers :: e.workers[g].phase.Pausing? && Throttled(cfg, e, e.workers[g]))
      <==>
      && HasWorkerNear(dl, offset)
      && (forall g | g in dl.workers :: dl.workers[g].phase.Pausing? && dl.workers[g].pos > last + cfg.readAhead)
      && cfg.readAhead > 0 && !dl.prefetch
  {
    if HasWorkerNear(dl, offset) {
      var g :| g in dl.workers && Near(dl.workers[g], offset);
      assert g in e.workers;
    }
  }

  /** A hanging wait stays so through all that bystanders do, unless they start another goroutine by a
      hint or lift the limit by a prefetch request. */
  lemma HangStays(cfg: Config, w: World, i: nat, r: nat, s: Step)
    requires i < |w.downloads| && Hanging(cfg, w.downloads[i], r)
    requires s in Possible(cfg, w) && Bystander(w, i, s) && !(OnDownload(s) && s.i == i && (s.Hint? || s.Promote?))
    ensures i < |After(cfg, w, s).downloads| && Hanging(cfg, After(cfg, w, s).downloads[i], r)
  {
    if OnDownload(s) {
      AfterOn(cfg, w, s);
      StepIndex(cfg, w, s);
      assert s.i == i ==> SameForWait(w.downloads[i], Stepped(cfg, w, s));
    } else {
      OpenerBystander(cfg, w, i, s);
    }
  }
}
