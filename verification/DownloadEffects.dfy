/** What the ends of a download achieve: cancel, fault, the last goroutine, hints, launches and handles, with all
    the steps that follow from them. */
module DownloadEffects {
  import opened Basics
  import opened Ranges
  import opened Downloads
  import opened DownloadInvariant
  import opened DownloadSafety
  import opened DownloadRow

  /** One more step at the front of a run. */
  lemma StepFirst(cfg: Config, w: World, s: Step, rest: seq<Step>)
    requires s in Possible(cfg, w) && IsRun(cfg, After(cfg, w, s), rest)
    ensures IsRun(cfg, w, [s] + rest) && EndOf(cfg, w, [s] + rest) == EndOf(cfg, After(cfg, w, s), rest)
  {
    assert ([s] + rest)[1..] == rest;
  }

  // ---------- Cancel and faults ----------

  /** Whoever waits for the Download now returns the error. */
  ghost predicate WaitersReleased(cfg: Config, w: World, i: nat) {
    && i < |w.downloads| && w.downloads[i].err
    && forall r | r in w.downloads[i].readers && w.downloads[i].readers[r].Waiting? ::
         && Recheck(i, r) in Possible(cfg, w)
         && i < |After(cfg, w, Recheck(i, r)).downloads|
         && r !in After(cfg, w, Recheck(i, r)).downloads[i].readers
  }

  lemma WokenReleased(cfg: Config, w: World, i: nat)
    requires i < |w.downloads| && w.downloads[i].err
    requires forall r | r in w.downloads[i].readers && w.downloads[i].readers[r].Waiting? ::
      w.downloads[i].readers[r].woken
    ensures WaitersReleased(cfg, w, i)
  {
    forall r | r in w.downloads[i].readers && w.downloads[i].readers[r].Waiting?
      ensures Recheck(i, r) in Possible(cfg, w)
      ensures i < |After(cfg, w, Recheck(i, r)).downloads|
      ensures r !in After(cfg, w, Recheck(i, r)).downloads[i].readers
    {
      AfterOn(cfg, w, Recheck(i, r));
    }
  }

  /** The locked section of a cancel cancels every goroutine and lets every waiter return with the error. */
  lemma CancelReleases(cfg: Config, w: World, i: nat, k: nat, ok: bool)
    requires HasJob(w, i, k, CancelLock) && RunJob(i, k, ok) in Possible(cfg, w)
    ensures var v := After(cfg, w, RunJob(i, k, ok));
      && WaitersReleased(cfg, v, i) && v.downloads[i].ranges == w.downloads[i].ranges
      && v.downloads[i].workers.Keys == w.downloads[i].workers.Keys
      && forall g | g in v.downloads[i].workers :: v.downloads[i].workers[g].cancelled
  {
    var v := After(cfg, w, RunJob(i, k, ok));
    AfterOn(cfg, w, RunJob(i, k, ok));
    assert v.downloads[i] == NextJob(w.downloads[i], k);
    WokenReleased(cfg, v, i);
  }

  /** The goroutine meets a fault: its stream breaks without having been cancelled, or the file cannot be written. */
  ghost predicate Faults(w: World, s: Step) {
    s.WriteFails? || (s.ReadFails? && IsWorker(w, s.i, s.g) && !w.downloads[s.i].workers[s.g].cancelled)
  }

  /** A fault is never swallowed: the next step of that goroutine records the error, lets every waiter return with
      it, and the goroutine leaves. */
  lemma FaultReported(cfg: Config, w: World, s: Step)
    requires s in Possible(cfg, w) && Faults(w, s)
    ensures var v := After(cfg, w, s);
      && Fail(s.i, s.g) in Possible(cfg, v)
      && WaitersReleased(cfg, After(cfg, v, Fail(s.i, s.g)), s.i)
      && InPhase(After(cfg, v, Fail(s.i, s.g)), s.i, s.g, Leaving)
  {
    AfterOn(cfg, w, s);
    var v := After(cfg, w, s);
    assert InPhase(v, s.i, s.g, Failing);
    FailReleases(cfg, v, s.i, s.g);
  }

  lemma FailReleases(cfg: Config, w: World, i: nat, g: nat)
    requires InPhase(w, i, g, Failing)
    ensures Fail(i, g) in Possible(cfg, w)
    ensures var v := After(cfg, w, Fail(i, g)); WaitersReleased(cfg, v, i) && InPhase(v, i, g, Leaving)
  {
    AfterOn(cfg, w, Fail(i, g));
    var v := After(cfg, w, Fail(i, g));
    assert v.downloads[i] == RecordError(w.downloads[i], g);
    WokenReleased(cfg, v, i);
  }

  // ---------- The end of a goroutine ----------

  /** The steps after which a goroutine is done: cancelled, at the end, idle too long, its download removed while it
      yielded, its error recorded, or throttled when the download ended. */
  ghost predicate Stops(cfg: Config, w: World, s: Step) {
    || s.Quit? || s.EndOfStream? || s.StopIdle? || s.StopYielding? || s.Fail?
    || (s.Proceed? && cfg.readAhead > 0 && IsWorker(w, s.i, s.g) && w.downloads[s.i].workers[s.g].sequential
        && (w.downloads[s.i].done || w.downloads[s.i].err))
    || (s.ReadFails? && IsWorker(w, s.i, s.g) && w.downloads[s.i].workers[s.g].cancelled)
  }

  /** The goroutine has left or is about to, and its number will not be given again. */
  ghost predicate Over(w: World, i: nat, g: nat) {
    && i < |w.downloads| && g <= w.downloads[i].nextId
    && (g in w.downloads[i].workers ==> w.downloads[i].workers[g].phase.Leaving?)
  }

  predicate EndsLike(d: Download, e: Download, g: nat) {
    && d.nextId <= e.nextId
    && (g <= d.nextId && g in e.workers ==> g in d.workers && e.workers[g].phase == d.workers[g].phase)
  }

  lemma OtherEndsLike(cfg: Config, w: World, s: Step, g: nat)
    requires OnDownload(s) && !OfWorker(s) && s in Possible(cfg, w) && s.i < |w.downloads|
    ensures EndsLike(w.downloads[s.i], Stepped(cfg, w, s), g)
  {
    match s
    case Enter(i, r, offset, size) => EnterEndsLike(w.downloads[i], w.Total(), r, offset, size, g);
    case _ =>
  }

  lemma EnterEndsLike(dl: Download, total: nat, r: nat, offset: nat, size: nat, g: nat)
    ensures EndsLike(dl, EnterWait(dl, total, r, offset, size), g)
  {
    var d := Broadcast(dl.(lastReadPos := Max(dl.lastReadPos, ReadEnd(offset, size, total))));
    RedirectEndsLike(d, offset, g);
    FarEndsLike(Redirected(d, offset), offset, g);
  }

  lemma RedirectEndsLike(dl: Download, offset: nat, g: nat)
    ensures EndsLike(dl, Redirected(dl, offset), g)
  {
  }

  lemma FarEndsLike(dl: Download, offset: nat, g: nat)
    ensures EndsLike(dl, CancelFarBehind(dl, offset), g)
  {
  }

  lemma WorkerEnds(cfg: Config, w: World, s: Step, g: nat)
    requires OfWorker(s) && s in Possible(cfg, w) && Over(w, s.i, g) && s.i < |w.downloads|
    ensures var e := Stepped(cfg, w, s);
      g <= e.nextId && (g in e.workers ==> e.workers[g].phase.Leaving?)
  {
  }

  lemma OverStep(cfg: Config, w: World, s: Step, i: nat, g: nat)
    requires s in Possible(cfg, w) && !s.Crash? && Over(w, i, g)
    ensures Over(After(cfg, w, s), i, g)
  {
    if OnDownload(s) {
      AfterOn(cfg, w, s);
      StepIndex(cfg, w, s);
      if s.i == i {
        if OfWorker(s) {
          WorkerEnds(cfg, w, s, g);
        } else {
          OtherEndsLike(cfg, w, s, g);
        }
      }
    }
  }

  lemma {:induction false} OverRun(cfg: Config, w: World, steps: seq<Step>, i: nat, g: nat)
    requires IsRun(cfg, w, steps) && Over(w, i, g) && forall s | s in steps :: !s.Crash?
    ensures Over(EndOf(cfg, w, steps), i, g)
    decreases |steps|
  {
    if steps != [] {
      assert steps[0] in steps && forall s | s in steps[1..] :: s in steps;
      OverStep(cfg, w, steps[0], i, g);
      OverRun(cfg, After(cfg, w, steps[0]), steps[1..], i, g);
    }
  }

  lemma StopPhase(cfg: Config, w: World, s: Step)
    requires s in Possible(cfg, w) && Stops(cfg, w, s)
    ensures OfWorker(s) && s.i < |w.downloads| && s.g in w.downloads[s.i].workers
    ensures var d, e := w.downloads[s.i], Stepped(cfg, w, s);
      e.nextId == d.nextId && s.g in e.workers && e.workers[s.g].phase.Leaving?
  {
  }

  lemma StopStep(cfg: Config, w: World, s: Step)
    requires WorldSound(w) && s in Possible(cfg, w) && Stops(cfg, w, s)
    ensures Over(After(cfg, w, s), s.i, s.g)
  {
    StopPhase(cfg, w, s);
    AfterOn(cfg, w, s);
    NumberGiven(w.downloads[s.i], w.Total(), s.g);
  }

  lemma NumberGiven(dl: Download, total: nat, g: nat)
    requires Sound(dl, total) && g in dl.workers
    ensures g <= dl.nextId
  {
  }

  /** A goroutine that stops writes nothing more: on every run of the process from there on it can only leave. */
  lemma StoppedWritesNothing(cfg: Config, w: World, s: Step, steps: seq<Step>)
    requires WorldSound(w) && s in Possible(cfg, w) && Stops(cfg, w, s)
    requires IsRun(cfg, After(cfg, w, s), steps) && forall t | t in steps :: !t.Crash?
    ensures forall t | && t in Possible(cfg, EndOf(cfg, After(cfg, w, s), steps))
                       && OfWorker(t) && t.i == s.i && t.g == s.g ::
      t.Exit?
  {
    StopStep(cfg, w, s);
    OverRun(cfg, After(cfg, w, s), steps, s.i, s.g);
    forall t | t in Possible(cfg, EndOf(cfg, After(cfg, w, s), steps)) && OfWorker(t) && t.i == s.i && t.g == s.g
      ensures t.Exit?
    {
      OverExits(cfg, EndOf(cfg, After(cfg, w, s), steps), t);
    }
  }

  lemma OverExits(cfg: Config, w: World, t: Step)
    requires t in Possible(cfg, w) && OfWorker(t) && Over(w, t.i, t.g)
    ensures t.Exit?
  {
  }

  /** The goroutine is about to leave. */
  ghost predicate IsLeaving(w: World, i: nat, g: nat) {
    i < |w.downloads| && g in w.downloads[i].workers && w.downloads[i].workers[g].phase.Leaving?
  }

  /** Why a goroutine of a download that is neither over nor failed may leave in the middle of its stream: it was
      cancelled, it has nothing to stream, it idled at the limit for too long, it prefetches for a path that left the
      manager's map, or it is a secondary one and the next chunk is there. */
  ghost predicate MayLeave(cfg: Config, w: World, s: Step)
    requires s in Possible(cfg, w) && OfWorker(s) && s.i < |w.downloads| && s.g in w.downloads[s.i].workers
  {
    var dl, x, e := w.downloads[s.i], w.downloads[s.i].workers[s.g], Stepped(cfg, w, s);
    || x.cancelled || x.start >= w.Total() || s.EndOfStream?
    || (cfg.idleTimeout && Throttled(cfg, dl, x))
    || (dl.prefetch && w.active.None?)
    || (!x.sequential && s.Commit? && x.phase.WroteChunk?
        && CoversRange(e.ranges, x.pos + x.phase.n, x.pos + x.phase.n + CHUNK_SIZE))
  }

  /** No goroutine leaves for any other reason. */
  lemma LeavesForAReason(cfg: Config, w: World, s: Step)
    requires s in Possible(cfg, w) && OfWorker(s) && s.i < |w.downloads| && s.g in w.downloads[s.i].workers
    requires !w.downloads[s.i].done && !w.downloads[s.i].err && !s.Fail?
    requires !IsLeaving(w, s.i, s.g) && IsLeaving(After(cfg, w, s), s.i, s.g)
    ensures MayLeave(cfg, w, s)
  {
    AfterOn(cfg, w, s);
  }

  // ---------- The last goroutine ----------

  /** Three more steps of the job, with writes that succeed. */
  function Three(i: nat, k: nat): seq<Step> {
    [RunJob(i, k, true)] + ([RunJob(i, k, true)] + ([RunJob(i, k, true)] + []))
  }

  lemma JobNext(cfg: Config, w: World, i: nat, k: nat, job: Job)
    requires HasJob(w, i, k, job) && !job.JobEnd?
    ensures RunJob(i, k, true) in Possible(cfg, w)
    ensures var v := After(cfg, w, RunJob(i, k, true));
      && HasJob(v, i, k, JobAfter(job, w.downloads[i].ranges)) && v.downloads[i].ranges == w.downloads[i].ranges
      && (job.FinishForget? || job.ForgetFirst? ==> v.active.None?)
      && (!job.FinishForget? && !job.ForgetFirst? ==> v.active == w.active)
      && (!job.FinishPut? && !job.CancelPut? ==> v.row == w.row)
      && (job.FinishPut? ==> v.row == Row(Clean, job.snap)) && (job.CancelPut? ==> v.row == Row(Evicted, job.snap))
      && (job.CancelLock? ==> v.downloads[i].err)
  {
    AfterOn(cfg, w, RunJob(i, k, true));
  }

  /** The job has run to its end. */
  ghost predicate Ended(w: World, i: nat, k: nat, row: Row) {
    HasJob(w, i, k, JobEnd) && w.row == row && w.active.None?
  }

  /** `finish`, undisturbed: the row is clean with the bytes of the set, and the path leaves the manager's map. */
  lemma FinishRuns(cfg: Config, w: World, i: nat, k: nat)
    requires HasJob(w, i, k, FinishStart)
    ensures IsRun(cfg, w, Three(i, k))
    ensures Ended(EndOf(cfg, w, Three(i, k)), i, k, Row(Clean, w.downloads[i].ranges))
  {
    var s := RunJob(i, k, true);
    JobNext(cfg, w, i, k, FinishStart);
    var a := After(cfg, w, s);
    JobNext(cfg, a, i, k, FinishPut(w.downloads[i].ranges));
    var b := After(cfg, a, s);
    JobNext(cfg, b, i, k, FinishForget);
    ThreeSteps(cfg, w, s, s, s);
  }

  /** The clean-up after an error, undisturbed: the path leaves the map, and the row is evicted with the bytes that
      are there. */
  lemma CleanupRuns(cfg: Config, w: World, i: nat, k: nat)
    requires HasJob(w, i, k, ForgetFirst)
    ensures IsRun(cfg, w, Three(i, k))
    ensures Ended(EndOf(cfg, w, Three(i, k)), i, k, Row(Evicted, w.downloads[i].ranges))
  {
    var s := RunJob(i, k, true);
    JobNext(cfg, w, i, k, ForgetFirst);
    var a := After(cfg, w, s);
    JobNext(cfg, a, i, k, CancelLock);
    var b := After(cfg, a, s);
    JobNext(cfg, b, i, k, CancelPut(w.downloads[i].ranges));
    ThreeSteps(cfg, w, s, s, s);
  }

  lemma ThreeSteps(cfg: Config, w: World, s: Step, t: Step, u: Step)
    requires s in Possible(cfg, w) && t in Possible(cfg, After(cfg, w, s))
    requires u in Possible(cfg, After(cfg, After(cfg, w, s), t))
    ensures IsRun(cfg, w, [s] + ([t] + ([u] + [])))
    ensures EndOf(cfg, w, [s] + ([t] + ([u] + []))) == After(cfg, After(cfg, After(cfg, w, s), t), u)
  {
    var a := After(cfg, w, s);
    var b := After(cfg, a, t);
    var c := After(cfg, b, u);
    assert IsRun(cfg, c, []) && EndOf(cfg, c, []) == c;
    StepFirst(cfg, b, u, []);
    StepFirst(cfg, a, t, [u] + []);
    StepFirst(cfg, w, s, [t] + ([u] + []));
  }

  /** The last goroutine that leaves brings the download to its end: clean if the file is complete, evicted with
      what is there after an error; and if neither, it only wakes the waiters, who start another one. */
  lemma LastExit(cfg: Config, w: World, i: nat, g: nat)
    requires InPhase(w, i, g, Leaving) && w.downloads[i].workers.Keys == {g} && !w.downloads[i].done
    ensures Exit(i, g) in Possible(cfg, w)
    ensures var dl, v, k := w.downloads[i], After(cfg, w, Exit(i, g)), |w.downloads[i].jobs|;
      && i < |v.downloads| && v.downloads[i].workers == map[] && v.row == w.row
      && (if Complete(dl.ranges, w.Total()) then
            && v.downloads[i].done && IsRun(cfg, v, Three(i, k))
            && Ended(EndOf(cfg, v, Three(i, k)), i, k, Row(Clean, dl.ranges))
          else if dl.err then
            && v.downloads[i].done && IsRun(cfg, v, Three(i, k))
            && Ended(EndOf(cfg, v, Three(i, k)), i, k, Row(Evicted, dl.ranges))
          else
            && !v.downloads[i].done
            && forall r | r in dl.readers && dl.readers[r].Waiting? :: Recheck(i, r) in Possible(cfg, v))
  {
    AfterOn(cfg, w, Exit(i, g));
    var dl, v, k := w.downloads[i], After(cfg, w, Exit(i, g)), |w.downloads[i].jobs|;
    assert dl.workers - {g} == map[];
    assert v.downloads[i] == ExitWorker(dl, w.Total(), g);
    if Complete(dl.ranges, w.Total()) {
      assert HasJob(v, i, k, FinishStart);
      FinishRuns(cfg, v, i, k);
    } else if dl.err {
      assert HasJob(v, i, k, ForgetFirst);
      CleanupRuns(cfg, v, i, k);
    }
  }

  /** `Cancel` from the manager, undisturbed: the path leaves the map at once, the row is evicted with the bytes that
      are there, and every waiter returns with the error. */
  lemma CancelRuns(cfg: Config, w: World)
    requires CancelPath in Possible(cfg, w)
    ensures var i, k := w.active.value, |w.downloads[w.active.value].jobs|;
      var steps := [CancelPath] + ([RunJob(i, k, true)] + ([RunJob(i, k, true)] + []));
      && After(cfg, w, CancelPath).active.None? && IsRun(cfg, w, steps)
      && Ended(EndOf(cfg, w, steps), i, k, Row(Evicted, w.downloads[i].ranges))
      && EndOf(cfg, w, steps).downloads[i].err
  {
    var i, k := w.active.value, |w.downloads[w.active.value].jobs|;
    var s := RunJob(i, k, true);
    var a := After(cfg, w, CancelPath);
    assert HasJob(a, i, k, CancelLock);
    JobNext(cfg, a, i, k, CancelLock);
    var b := After(cfg, a, s);
    JobNext(cfg, b, i, k, CancelPut(w.downloads[i].ranges));
    ThreeSteps(cfg, w, CancelPath, s, s);
    assert After(cfg, b, s).downloads[i].err;
  }

  // ---------- Goroutines that start ----------

  /** A launch that finds a byte missing starts a sequential goroutine at the first such byte. */
  lemma LaunchAtFirstHole(dl: Download, total: nat)
    requires dl.nextId + 1 !in dl.workers && !Complete(dl.ranges, total)
    ensures var e := LaunchFirst(dl, total);
      exists x: nat :: x < total && !Covers(dl.ranges, x) && (forall b | 0 <= b < x :: Covers(dl.ranges, b))
        && e == dl.(nextId := dl.nextId + 1,
                    workers := dl.workers[dl.nextId + 1 := Worker(x, x, true, false, Ready)])
  {
    var x := FirstHole(dl.ranges, 0, total);
    HoleFound(dl.ranges, 0, total);
    assert exists b :: 0 <= b < total && !Covers(dl.ranges, b);
  }

  lemma {:induction false} HoleFound(ivs: Intervals, from: nat, total: nat)
    requires from <= total
    ensures var x := FirstHole(ivs, from, total);
      from <= x <= total && (x < total ==> !Covers(ivs, x)) && forall b | from <= b < x :: Covers(ivs, b)
    decreases total - from
  {
    if from < total && Covers(ivs, from) {
      HoleFound(ivs, from + 1, total);
    }
  }

  /** After a hint the next read finds its first chunk, or a goroutine near it, unless the download is over. At most
      one goroutine is new, and nothing else changes. */
  lemma HintHelps(dl: Download, offset: nat)
    requires dl.nextId + 1 !in dl.workers
    ensures var e := HintAt(dl, offset);
      && (e.done || e.err || CoversRange(e.ranges, offset, offset + CHUNK_SIZE) || HasWorkerNear(e, offset))
      && e == dl.(workers := e.workers, nextId := e.nextId)
      && (forall g | g in dl.workers :: g in e.workers && e.workers[g] == dl.workers[g])
      && (forall g | g in e.workers && g !in dl.workers ::
            e.workers[g] == Worker(offset, offset, false, false, Ready) && !HasWorkerNear(dl, offset))
  {
    var e := HintAt(dl, offset);
    if e != dl {
      assert Near(e.workers[dl.nextId + 1], offset);
    }
  }

  /** A reader that has to wait leaves no secondary goroutine running that is more than the window behind it. */
  lemma EnterCancelsFar(dl: Download, total: nat, r: nat, offset: nat, size: nat)
    requires r !in dl.readers
    requires var e := EnterWait(dl, total, r, offset, size); r in e.readers && e.readers[r].Waiting?
    ensures var e := EnterWait(dl, total, r, offset, size);
      && (forall g | g in e.workers && !e.workers[g].sequential && offset - e.workers[g].pos > GOROUTINE_WINDOW ::
            e.workers[g].cancelled)
      && (HasWorkerNear(dl, offset) ==>
            forall g | && g in dl.workers
                       && (dl.workers[g].sequential || offset - dl.workers[g].pos <= GOROUTINE_WINDOW) ::
              g in e.workers && e.workers[g] == dl.workers[g])
  {
  }

  // ---------- Handles ----------

  /** A `Start` that finds the Download registered. */
  predicate Joins(w: World, s: Step, i: nat) {
    (s.Find? || s.Register?) && w.active == Some(i) && i < |w.downloads|
  }

  /** A `Start` that joins is over with that step: it holds its handle and takes no further one. */
  lemma JoinEnds(cfg: Config, w: World, s: Step, i: nat)
    requires s in Possible(cfg, w) && Joins(w, s, i)
    ensures s.o !in After(cfg, w, s).openers && After(cfg, w, s).active == Some(i)
    ensures After(cfg, w, s).disk == w.disk && After(cfg, w, s).row == w.row
  {
  }

  ghost function Handles(cfg: Config, w: World, steps: seq<Step>, i: nat): int
    requires IsRun(cfg, w, steps)
    decreases |steps|
  {
    if steps == [] then 0
    else
      var one := if Joins(w, steps[0], i) then 1 else if steps[0] == Release(i) then -1 else 0;
      one + Handles(cfg, After(cfg, w, steps[0]), steps[1..], i)
  }

  lemma HandleStep(cfg: Config, w: World, s: Step, i: nat)
    requires s in Possible(cfg, w) && !s.Crash? && i < |w.downloads|
    ensures i < |After(cfg, w, s).downloads|
    ensures After(cfg, w, s).downloads[i].openCount
         == w.downloads[i].openCount + (if Joins(w, s, i) then 1 else if s == Release(i) then -1 else 0)
  {
    if OnDownload(s) {
      AfterOn(cfg, w, s);
      StepIndex(cfg, w, s);
      if OfWorker(s) {
        WorkerKeepsCount(cfg, w, s);
      } else {
        OtherKeepsCount(cfg, w, s);
      }
    }
  }

  lemma WorkerKeepsCount(cfg: Config, w: World, s: Step)
    requires OfWorker(s) && s in Possible(cfg, w) && s.i < |w.downloads|
    ensures Stepped(cfg, w, s).openCount == w.downloads[s.i].openCount
  {
  }

  lemma OtherKeepsCount(cfg: Config, w: World, s: Step)
    requires OnDownload(s) && !OfWorker(s) && s in Possible(cfg, w) && s.i < |w.downloads|
    ensures Stepped(cfg, w, s).openCount == w.downloads[s.i].openCount - if s.Release? then 1 else 0
  {
  }

  /** The handle count is the handles given out less those released, along every run of the process. */
  lemma {:induction false} HandlesCounted(cfg: Config, w: World, steps: seq<Step>, i: nat)
    requires IsRun(cfg, w, steps) && i < |w.downloads| && forall s | s in steps :: !s.Crash?
    ensures i < |EndOf(cfg, w, steps).downloads|
    ensures EndOf(cfg, w, steps).downloads[i].openCount == w.downloads[i].openCount + Handles(cfg, w, steps, i)
    decreases |steps|
  {
    if steps != [] {
      assert steps[0] in steps && forall s | s in steps[1..] :: s in steps;
      HandleStep(cfg, w, steps[0], i);
      HandlesCounted(cfg, After(cfg, w, steps[0]), steps[1..], i);
    }
  }
}
