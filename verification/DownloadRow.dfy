/** What the row of a file stores, over whole runs: the snapshot of the last write that took effect, which is what
    the set held in the locked section that took it; and what a process that starts after a crash resumes from it. */
module DownloadRow {
  import opened Basics
  import opened Ranges
  import opened Downloads
  import opened DownloadInvariant
  import opened DownloadSafety

  // ---------- Writes ----------

  /** The step stores `snap` in the row: a checkpoint while the row is downloading, the end of `finish`, or the end
      of `cancel`. */
  ghost predicate Stores(w: World, s: Step, snap: Intervals) {
    if s.FlushWrite? then
      && s.ok && w.row.state.Downloading?
      && s.i < |w.downloads| && s.j < |w.downloads[s.i].checkpoints.flushers|
      && w.downloads[s.i].checkpoints.flushers[s.j].snap == snap
    else
      && s.RunJob? && s.ok && s.i < |w.downloads| && s.k < |w.downloads[s.i].jobs|
      && (w.downloads[s.i].jobs[s.k] == FinishPut(snap) || w.downloads[s.i].jobs[s.k] == CancelPut(snap))
  }

  ghost predicate SomeStored(w: World, s: Step) {
    exists snap :: Stores(w, s, snap)
  }

  /** A store leaves exactly its snapshot in the row, and nothing else changes the row's ranges. */
  lemma StoreStep(cfg: Config, w: World, s: Step)
    requires s in Possible(cfg, w)
    ensures forall snap | Stores(w, s, snap) :: After(cfg, w, s).row.ranges == snap
    ensures !SomeStored(w, s) ==> After(cfg, w, s).row.ranges == w.row.ranges
  {
    if s.FlushWrite? && s.ok && w.row.state.Downloading? {
      assert Stores(w, s, w.downloads[s.i].checkpoints.flushers[s.j].snap);
    }
    if s.RunJob? && s.ok && (w.downloads[s.i].jobs[s.k].FinishPut? || w.downloads[s.i].jobs[s.k].CancelPut?) {
      assert Stores(w, s, w.downloads[s.i].jobs[s.k].snap);
    }
  }

  /** The state column: downloading after a successful `Start`, clean after `finish`, evicted after `cancel`. */
  lemma StateStep(cfg: Config, w: World, s: Step)
    requires s in Possible(cfg, w)
    ensures var before, after := w.row.state, After(cfg, w, s).row.state;
      if s.MarkDownloading? && s.ok then after.Downloading?
      else if s.RunJob? && s.ok && w.downloads[s.i].jobs[s.k].FinishPut? then after.Clean?
      else if s.RunJob? && s.ok && w.downloads[s.i].jobs[s.k].CancelPut? then after.Evicted?
      else after == before
  {
  }

  ghost predicate NothingStored(cfg: Config, w: World, steps: seq<Step>)
    requires IsRun(cfg, w, steps)
    decreases |steps|
  {
    steps != [] ==> !SomeStored(w, steps[0]) && NothingStored(cfg, After(cfg, w, steps[0]), steps[1..])
  }

  lemma {:induction false} RangesStay(cfg: Config, w: World, steps: seq<Step>)
    requires IsRun(cfg, w, steps) && NothingStored(cfg, w, steps)
    ensures EndOf(cfg, w, steps).row.ranges == w.row.ranges
    decreases |steps|
  {
    if steps != [] {
      StoreStep(cfg, w, steps[0]);
      RangesStay(cfg, After(cfg, w, steps[0]), steps[1..]);
    }
  }

  /** Along every run, crashes and restarts included, the row names exactly the bytes of the last snapshot stored. */
  lemma LastStoreStays(cfg: Config, w: World, s: Step, snap: Intervals, steps: seq<Step>)
    requires s in Possible(cfg, w) && Stores(w, s, snap)
    requires IsRun(cfg, After(cfg, w, s), steps) && NothingStored(cfg, After(cfg, w, s), steps)
    ensures EndOf(cfg, After(cfg, w, s), steps).row.ranges == snap
  {
    StoreStep(cfg, w, s);
    RangesStay(cfg, After(cfg, w, s), steps);
  }

  // ---------- Where the snapshots come from ----------

  ghost predicate HasJob(w: World, i: nat, k: nat, job: Job) {
    i < |w.downloads| && k < |w.downloads[i].jobs| && w.downloads[i].jobs[k] == job
  }

  /** The process lives on and nobody runs the job. */
  predicate LeavesJob(s: Step, i: nat, k: nat) {
    !s.Crash? && !(s.RunJob? && s.i == i && s.k == k)
  }

  /** The jobs scheduled so far keep their places. */
  predicate KeepsJobs(d: Download, e: Download) {
    |d.jobs| <= |e.jobs| && e.jobs[..|d.jobs|] == d.jobs
  }

  lemma WorkerKeepsJobs(cfg: Config, w: World, s: Step)
    requires OfWorker(s) && s in Possible(cfg, w) && s.i < |w.downloads|
    ensures KeepsJobs(w.downloads[s.i], Stepped(cfg, w, s))
  {
  }

  lemma OtherKeepsJobs(cfg: Config, w: World, s: Step)
    requires OnDownload(s) && !OfWorker(s) && s in Possible(cfg, w) && s.i < |w.downloads|
    ensures var d, e := w.downloads[s.i], Stepped(cfg, w, s);
      if s.RunJob? then |e.jobs| == |d.jobs| && forall k | 0 <= k < |d.jobs| && k != s.k :: e.jobs[k] == d.jobs[k]
      else KeepsJobs(d, e)
  {
  }

  lemma JobWaits(cfg: Config, w: World, s: Step, i: nat, k: nat, job: Job)
    requires s in Possible(cfg, w) && HasJob(w, i, k, job) && LeavesJob(s, i, k)
    ensures HasJob(After(cfg, w, s), i, k, job)
  {
    if OnDownload(s) {
      AfterOn(cfg, w, s);
      StepIndex(cfg, w, s);
      if s.i == i {
        JobWaitsOn(cfg, w, s, k, job);
      }
    }
  }

  lemma JobWaitsOn(cfg: Config, w: World, s: Step, k: nat, job: Job)
    requires s in Possible(cfg, w) && OnDownload(s) && s.i < |w.downloads| && HasJob(w, s.i, k, job)
    requires LeavesJob(s, s.i, k)
    ensures k < |Stepped(cfg, w, s).jobs| && Stepped(cfg, w, s).jobs[k] == job
  {
    var e := Stepped(cfg, w, s);
    if OfWorker(s) {
      WorkerKeepsJobs(cfg, w, s);
      assert e.jobs[k] == e.jobs[..|w.downloads[s.i].jobs|][k];
    } else {
      OtherKeepsJobs(cfg, w, s);
      assert !s.RunJob? ==> e.jobs[k] == e.jobs[..|w.downloads[s.i].jobs|][k];
    }
  }

  lemma {:induction false} JobWaitsRun(cfg: Config, w: World, steps: seq<Step>, i: nat, k: nat, job: Job)
    requires IsRun(cfg, w, steps) && HasJob(w, i, k, job) && forall s | s in steps :: LeavesJob(s, i, k)
    ensures HasJob(EndOf(cfg, w, steps), i, k, job)
    decreases |steps|
  {
    if steps != [] {
      assert steps[0] in steps && forall s | s in steps[1..] :: s in steps;
      JobWaits(cfg, w, steps[0], i, k, job);
      JobWaitsRun(cfg, After(cfg, w, steps[0]), steps[1..], i, k, job);
    }
  }

  /** `cancel` stores exactly what the set held in its locked section, whatever happens in between, and the row is
      evicted; `finish` stores what the set held when it began, and the row is clean. */
  lemma JobStores(cfg: Config, w: World, i: nat, k: nat, ok: bool, steps: seq<Step>)
    requires RunJob(i, k, ok) in Possible(cfg, w) && (HasJob(w, i, k, CancelLock) || HasJob(w, i, k, FinishStart))
    requires var v := After(cfg, w, RunJob(i, k, ok));
      IsRun(cfg, v, steps) && forall s | s in steps :: LeavesJob(s, i, k)
    ensures var u := EndOf(cfg, After(cfg, w, RunJob(i, k, ok)), steps);
      && RunJob(i, k, true) in Possible(cfg, u) && Stores(u, RunJob(i, k, true), w.downloads[i].ranges)
      && After(cfg, u, RunJob(i, k, true)).row
           == Row(if HasJob(w, i, k, CancelLock) then Evicted else Clean, w.downloads[i].ranges)
  {
    var v := After(cfg, w, RunJob(i, k, ok));
    var ranges := w.downloads[i].ranges;
    var job := if HasJob(w, i, k, CancelLock) then CancelPut(ranges) else FinishPut(ranges);
    assert HasJob(v, i, k, job);
    JobWaitsRun(cfg, v, steps, i, k, job);
    PutStores(cfg, EndOf(cfg, v, steps), i, k, ranges);
  }

  lemma PutStores(cfg: Config, w: World, i: nat, k: nat, snap: Intervals)
    requires HasJob(w, i, k, CancelPut(snap)) || HasJob(w, i, k, FinishPut(snap))
    ensures RunJob(i, k, true) in Possible(cfg, w) && Stores(w, RunJob(i, k, true), snap)
    ensures After(cfg, w, RunJob(i, k, true)).row
         == Row(if HasJob(w, i, k, CancelPut(snap)) then Evicted else Clean, snap)
  {
    StoreStep(cfg, w, RunJob(i, k, true));
    StateStep(cfg, w, RunJob(i, k, true));
  }

  // ---------- After a crash ----------

  predicate RegistersNothing(steps: seq<Step>) {
    forall s | s in steps :: !s.Register?
  }

  ghost predicate ResumesOnly(w: World, ranges: Intervals) {
    && w.downloads == [] && w.active.None? && w.row.ranges == ranges
    && forall o | o in w.openers && w.openers[o].Resumed? :: w.openers[o].ranges == ranges
  }

  lemma ResumesStep(cfg: Config, w: World, s: Step, ranges: Intervals)
    requires s in Possible(cfg, w) && !s.Register? && ResumesOnly(w, ranges)
    ensures ResumesOnly(After(cfg, w, s), ranges)
  {
    if OnDownload(s) {
      StepIndex(cfg, w, s);
    }
  }

  lemma {:induction false} ResumesRun(cfg: Config, w: World, steps: seq<Step>, ranges: Intervals)
    requires IsRun(cfg, w, steps) && RegistersNothing(steps) && ResumesOnly(w, ranges)
    ensures ResumesOnly(EndOf(cfg, w, steps), ranges)
    decreases |steps|
  {
    if steps != [] {
      assert steps[0] in steps && forall s | s in steps[1..] :: s in steps;
      ResumesStep(cfg, w, steps[0], ranges);
      ResumesRun(cfg, After(cfg, w, steps[0]), steps[1..], ranges);
    }
  }

  /** Whatever a new process does before, the first Download that it registers starts from exactly the bytes that
      the row names, and takes the place of the path in the manager's map. */
  lemma FirstDownloadResumes(cfg: Config, w: World, steps: seq<Step>, o: nat)
    requires AtRest(w) && IsRun(cfg, w, steps) && RegistersNothing(steps)
    requires Register(o) in Possible(cfg, EndOf(cfg, w, steps))
    ensures var v := After(cfg, EndOf(cfg, w, steps), Register(o));
      v.downloads == [NewDownload(w.row.ranges)] && v.active == Some(0) && v.row.ranges == w.row.ranges
  {
    ResumesRun(cfg, w, steps, w.row.ranges);
  }

  const OPENING := [Find(0), Stat(0), OpenFile(0), LoadRanges(0)]

  /** A single `Start` gets there. */
  lemma StartResumes(cfg: Config, w: World)
    requires AtRest(w)
    ensures IsRun(cfg, w, OPENING) && RegistersNothing(OPENING) && Register(0) in Possible(cfg, EndOf(cfg, w, OPENING))
    ensures EndOf(cfg, w, OPENING).disk == if |w.disk| == w.Total() then w.disk else Zeros(w.Total())
  {
    var a := After(cfg, w, Find(0));
    var b := After(cfg, a, Stat(0));
    var c := After(cfg, b, OpenFile(0));
    var d := After(cfg, c, LoadRanges(0));
    assert OPENING[1..] == [Stat(0), OpenFile(0), LoadRanges(0)];
    assert OPENING[1..][1..] == [OpenFile(0), LoadRanges(0)] && OPENING[1..][1..][1..] == [LoadRanges(0)];
    assert IsRun(cfg, c, [LoadRanges(0)]) && EndOf(cfg, c, [LoadRanges(0)]) == d;
  }

  /** Crash-safe progress. A snapshot that was stored, by a checkpoint, by `finish` or by `cancel`, and after which
      nothing else was stored, survives the crash of the process: the next one starts its Download from exactly
      those bytes. */
  lemma ProgressSurvives(cfg: Config, w: World, s: Step, snap: Intervals, steps: seq<Step>, next: seq<Step>, o: nat)
    requires s in Possible(cfg, w) && Stores(w, s, snap)
    requires IsRun(cfg, After(cfg, w, s), steps) && NothingStored(cfg, After(cfg, w, s), steps)
    requires var crashed := After(cfg, EndOf(cfg, After(cfg, w, s), steps), Crash);
      IsRun(cfg, crashed, next) && RegistersNothing(next) && Register(o) in Possible(cfg, EndOf(cfg, crashed, next))
    ensures var crashed := After(cfg, EndOf(cfg, After(cfg, w, s), steps), Crash);
      && AtRest(crashed) && crashed.row == EndOf(cfg, After(cfg, w, s), steps).row
      && crashed.disk == EndOf(cfg, After(cfg, w, s), steps).disk
      && After(cfg, EndOf(cfg, crashed, next), Register(o)).downloads == [NewDownload(snap)]
  {
    LastStoreStays(cfg, w, s, snap, steps);
    var crashed := After(cfg, EndOf(cfg, After(cfg, w, s), steps), Crash);
    FirstDownloadResumes(cfg, crashed, next, o);
  }
}
