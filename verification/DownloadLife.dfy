/** The life cycle of a Download, and the two interleavings of `Start` that break a promise. */
module DownloadLife {
  import opened Basics
  import opened Ranges
  import opened Downloads
  import opened DownloadInvariant
  import opened DownloadSafety

  /** `done` is set once and schedules exactly one of `finish` and the error clean-up; from then on no
      goroutine exists. */
  ghost predicate LifeCycle(dl: Download) {
    && (dl.done ==> dl.workers == map[])
    && dl.finishes + dl.cleanups == (if dl.done then 1 else 0)
  }

  lemma EnterLife(dl: Download, total: nat, r: nat, offset: nat, size: nat)
    requires LifeCycle(dl)
    ensures LifeCycle(EnterWait(dl, total, r, offset, size)) && (dl.done ==> EnterWait(dl, total, r, offset, size).done)
  {
  }

  lemma WorkerLife(cfg: Config, w: World, s: Step)
    requires OfWorker(s) && s in Possible(cfg, w) && LifeCycle(w.downloads[s.i])
    ensures LifeCycle(Stepped(cfg, w, s)) && (w.downloads[s.i].done ==> Stepped(cfg, w, s).done)
  {
  }

  /** Every step on a running Download keeps the life cycle and never takes `done` back. */
  lemma StepLife(cfg: Config, w: World, s: Step)
    requires OnDownload(s) && s in Possible(cfg, w) && LifeCycle(w.downloads[s.i])
    ensures LifeCycle(Stepped(cfg, w, s)) && (w.downloads[s.i].done ==> Stepped(cfg, w, s).done)
  {
    if OfWorker(s) {
      WorkerLife(cfg, w, s);
    } else {
      var dl := w.downloads[s.i];
      match s
      case Enter(_, r, offset, size) => EnterLife(dl, w.Total(), r, offset, size);
      case RunJob(_, k, _) => assert CancelWorkers(dl).workers.Keys == dl.workers.Keys;
      case _ =>
    }
  }

  /** Once an error is recorded it stays, and the goroutine set only shrinks. */
  lemma ErrorOnlyShrinks(cfg: Config, w: World, s: Step)
    requires OnDownload(s) && s in Possible(cfg, w) && w.downloads[s.i].err
    ensures var e := Stepped(cfg, w, s);
      e.err && e.workers.Keys <= w.downloads[s.i].workers.Keys
  {
    if OfWorker(s) {
      ErrorWorker(cfg, w, s);
    }
  }

  lemma ErrorWorker(cfg: Config, w: World, s: Step)
    requires OfWorker(s) && s in Possible(cfg, w) && w.downloads[s.i].err
    ensures Stepped(cfg, w, s).err && Stepped(cfg, w, s).workers.Keys <= w.downloads[s.i].workers.Keys
  {
  }

  /** The last part of `Start` runs after the Download is visible to others. Nobody must have used it:
      the life cycle survives the launch exactly when no one finished the Download first and, if
      the set is already complete, no goroutine runs. */
  predicate Undisturbed(dl: Download, complete: bool) {
    !dl.done && (complete ==> dl.workers == map[])
  }

  lemma LaunchLife(dl: Download, total: nat)
    requires LifeCycle(dl)
    ensures LifeCycle(LaunchFirst(dl, total)) <==> Undisturbed(dl, Complete(dl.ranges, total))
  {
    if !Complete(dl.ranges, total) {
      assert dl.nextId + 1 in LaunchFirst(dl, total).workers;
    }
  }

  /** A launch respects an error recorded before it exactly when there is nothing left to fetch. */
  lemma LaunchAfterError(dl: Download, total: nat)
    requires Sound(dl, total) && dl.err
    ensures LaunchFirst(dl, total).workers.Keys <= dl.workers.Keys <==> Complete(dl.ranges, total)
  {
    if !Complete(dl.ranges, total) {
      assert dl.nextId + 1 in LaunchFirst(dl, total).workers.Keys && dl.nextId + 1 !in dl.workers;
    }
  }

  // ---------- Whole runs ----------

  ghost predicate AllLive(w: World) {
    forall i | 0 <= i < |w.downloads| :: LifeCycle(w.downloads[i])
  }

  ghost predicate LaunchOk(w: World, s: Step) {
    s.Launch? && s.o in w.openers && w.openers[s.o].Marked? && w.openers[s.o].dl < |w.downloads| ==>
      var dl := w.downloads[w.openers[s.o].dl]; Undisturbed(dl, Complete(dl.ranges, w.Total()))
  }

  lemma OnDownloadLive(cfg: Config, w: World, s: Step)
    requires OnDownload(s) && s in Possible(cfg, w) && AllLive(w)
    ensures AllLive(AfterOnDownload(cfg, w, s))
  {
    StepLife(cfg, w, s);
  }

  lemma OpenerStepLive(cfg: Config, w: World, s: Step)
    requires WorldSound(w) && s in Possible(cfg, w) && AllLive(w) && !OnDownload(s) && !s.Launch?
    ensures AllLive(After(cfg, w, s))
  {
  }

  lemma LaunchStepLive(cfg: Config, w: World, s: Step)
    requires WorldSound(w) && s.Launch? && s in Possible(cfg, w) && AllLive(w)
    ensures AllLive(After(cfg, w, s)) <==> LaunchOk(w, s)
  {
    var i, v := w.openers[s.o].dl, After(cfg, w, s);
    LaunchLife(w.downloads[i], w.Total());
    assert v.downloads == w.downloads[i := LaunchFirst(w.downloads[i], w.Total())];
    assert AllLive(v) ==> LifeCycle(v.downloads[i]);
  }

  lemma WorldStepLife(cfg: Config, w: World, s: Step)
    requires WorldSound(w) && s in Possible(cfg, w) && AllLive(w)
    ensures AllLive(After(cfg, w, s)) <==> LaunchOk(w, s)
  {
    if OnDownload(s) {
      assert After(cfg, w, s) == AfterOnDownload(cfg, w, s);
      OnDownloadLive(cfg, w, s);
    } else if s.Launch? {
      LaunchStepLive(cfg, w, s);
    } else {
      OpenerStepLive(cfg, w, s);
    }
  }

  ghost predicate LiveThroughout(cfg: Config, w: World, steps: seq<Step>)
    requires IsRun(cfg, w, steps)
    decreases |steps|
  {
    AllLive(w) && (steps != [] ==> LiveThroughout(cfg, After(cfg, w, steps[0]), steps[1..]))
  }

  ghost predicate LaunchesOk(cfg: Config, w: World, steps: seq<Step>)
    requires IsRun(cfg, w, steps)
    decreases |steps|
  {
    steps != [] ==> LaunchOk(w, steps[0]) && LaunchesOk(cfg, After(cfg, w, steps[0]), steps[1..])
  }

  /** Along every run the life cycle holds in all states if and only if every launch found its
      Download undisturbed. */
  lemma {:induction false} LifeCycleExact(cfg: Config, w: World, steps: seq<Step>)
    requires IsRun(cfg, w, steps) && WorldSound(w) && AllLive(w)
    ensures LiveThroughout(cfg, w, steps) <==> LaunchesOk(cfg, w, steps)
    decreases |steps|
  {
    if steps != [] {
      WorldStepLife(cfg, w, steps[0]);
      StepWorldSound(cfg, w, steps[0]);
      if LaunchOk(w, steps[0]) {
        LifeCycleExact(cfg, After(cfg, w, steps[0]), steps[1..]);
      } else {
        assert !AllLive(After(cfg, w, steps[0]));
      }
    }
  }

  /** Who may change a finished row: a new `Start`, a `finish` whose set is complete, or a `cancel`.
      A late checkpoint never does. */
  lemma TerminalRow(cfg: Config, w: World, s: Step)
    requires WorldSound(w) && s in Possible(cfg, w) && (w.row.state.Clean? || w.row.state.Evicted?)
    requires After(cfg, w, s).row != w.row
    ensures var row := After(cfg, w, s).row;
      || (s.MarkDownloading? && row == w.row.(state := Downloading))
      || (s.RunJob? && row.state.Clean? && Complete(row.ranges, w.Total()))
      || (s.RunJob? && row.state.Evicted?)
  {
  }

  // ---------- The two races ----------

  /** An uncached one-byte file. */
  function OneByteFile(): World {
    World([7], [], Row(Evicted, []), [], None, map[])
  }

  const UNLIMITED := Config(0, false)

  /** One more step of a run on the one-byte file. */
  lemma Go(steps: seq<Step>, w: World, s: Step) returns (longer: seq<Step>, v: World)
    requires IsRun(UNLIMITED, OneByteFile(), steps) && w == EndOf(UNLIMITED, OneByteFile(), steps)
    requires s in Possible(UNLIMITED, w)
    ensures IsRun(UNLIMITED, OneByteFile(), longer) && v == EndOf(UNLIMITED, OneByteFile(), longer)
    ensures v == After(UNLIMITED, w, s)
  {
    longer, v := Extend(UNLIMITED, OneByteFile(), steps, w, s);
  }

  const STREAMING := Worker(0, 0, true, false, WroteChunk(1))
  const STREAMED := Worker(0, 1, true, false, Pausing)

  /** A reader asks for the byte, the goroutine it starts writes and records it, and waits. */
  lemma FetchByte(steps: seq<Step>, w: World) returns (longer: seq<Step>, v: World)
    requires IsRun(UNLIMITED, OneByteFile(), steps) && w == EndOf(UNLIMITED, OneByteFile(), steps)
    requires w.remote == [7] && w.disk == [0] && w.downloads == [NewDownload([]).(openCount := 2)]
    ensures IsRun(UNLIMITED, OneByteFile(), longer) && v == EndOf(UNLIMITED, OneByteFile(), longer)
    ensures |v.downloads| == 1 && v == w.(disk := [7], downloads := v.downloads)
    ensures v.downloads[0].workers == map[1 := STREAMED] && v.downloads[0].readers == map[0 := Waiting(0, 1, true)]
    ensures Fetched(v.downloads[0])
  {
    longer, v := AskForByte(steps, w);
    longer, v := WriteByte(longer, v);
    longer, v := RecordByte(longer, v);
  }

  ghost predicate Fetched(dl: Download) {
    CoversRange(dl.ranges, 0, 1) && !dl.done && !dl.err && dl.finishes == 0
  }

  lemma PhaseOfOne(downloads: seq<Download>, phase: Phase)
    requires |downloads| == 1 && downloads[0].workers.Keys == {1}
    ensures var dl := downloads[0];
      downloads[0 := SetPhase(dl, 1, phase)] == [dl.(workers := map[1 := dl.workers[1].(phase := phase)])]
  {
    var dl := downloads[0];
    assert dl.workers[1 := dl.workers[1].(phase := phase)] == map[1 := dl.workers[1].(phase := phase)];
  }

  lemma WriteByte(steps: seq<Step>, w: World) returns (longer: seq<Step>, v: World)
    requires IsRun(UNLIMITED, OneByteFile(), steps) && w == EndOf(UNLIMITED, OneByteFile(), steps)
    requires w.remote == [7] && w.disk == [0]
    requires |w.downloads| == 1 && w.downloads[0].workers == map[1 := Worker(0, 0, true, false, Ready)]
    ensures IsRun(UNLIMITED, OneByteFile(), longer) && v == EndOf(UNLIMITED, OneByteFile(), longer)
    ensures v == w.(disk := [7], downloads := [w.downloads[0].(workers := map[1 := STREAMING])])
  {
    longer, v := Go(steps, w, Chunk(0, 1, [7]));
    assert v.disk == [7];
    PhaseOfOne(w.downloads, WroteChunk(1));
  }

  lemma RecordByte(steps: seq<Step>, w: World) returns (longer: seq<Step>, v: World)
    requires IsRun(UNLIMITED, OneByteFile(), steps) && w == EndOf(UNLIMITED, OneByteFile(), steps)
    requires |w.downloads| == 1 && w.downloads[0].workers == map[1 := STREAMING] && w.remote == [7]
    requires w.downloads[0].ranges == [] && !w.downloads[0].done && !w.downloads[0].err && w.downloads[0].finishes == 0
    requires w.downloads[0].unpersisted == 0 && w.downloads[0].readers == map[0 := Waiting(0, 1, false)]
    ensures IsRun(UNLIMITED, OneByteFile(), longer) && v == EndOf(UNLIMITED, OneByteFile(), longer)
    ensures |v.downloads| == 1 && v == w.(downloads := v.downloads)
    ensures v.downloads[0].workers == map[1 := STREAMED] && v.downloads[0].readers == map[0 := Waiting(0, 1, true)]
    ensures Fetched(v.downloads[0])
  {
    ByteRecorded(w.downloads[0]);
    longer, v := Go(steps, w, Commit(0, 1, false));
    assert v.downloads == [CommitChunk(w.downloads[0], 1, 1, false)];
  }

  /** The section that records the byte wakes the reader and lets the goroutine wait. */
  lemma ByteRecorded(dl: Download)
    requires dl.workers == map[1 := STREAMING] && dl.ranges == [] && dl.readers == map[0 := Waiting(0, 1, false)]
    requires !dl.done && !dl.err && dl.finishes == 0 && dl.unpersisted == 0
    ensures var after := CommitChunk(dl, 1, 1, false);
      after.workers == map[1 := STREAMED] && after.readers == map[0 := Waiting(0, 1, true)] && Fetched(after)
  {
    AddedView([], 0, 1);
    var after := CommitChunk(dl, 1, 1, false);
    assert after.ranges == Added([], 0, 1);
    assert after.workers == map[1 := STREAMED];
  }

  lemma AskForByte(steps: seq<Step>, w: World) returns (longer: seq<Step>, v: World)
    requires IsRun(UNLIMITED, OneByteFile(), steps) && w == EndOf(UNLIMITED, OneByteFile(), steps)
    requires w.remote == [7] && w.downloads == [NewDownload([]).(openCount := 2)]
    ensures IsRun(UNLIMITED, OneByteFile(), longer) && v == EndOf(UNLIMITED, OneByteFile(), longer)
    ensures v == w.(downloads := [NewDownload([]).(openCount := 2, lastReadPos := 1, nextId := 1,
      workers := map[1 := Worker(0, 0, true, false, Ready)], readers := map[0 := Waiting(0, 1, false)])])
  {
    assert !Covers([], 0);
    longer, v := Go(steps, w, Enter(0, 0, 0, 1));
    assert v.downloads[0].workers == map[1 := Worker(0, 0, true, false, Ready)];
  }

  /** Both openers have found no cache file. */
  lemma StatTwice() returns (steps: seq<Step>, w: World)
    ensures IsRun(UNLIMITED, OneByteFile(), steps) && w == EndOf(UNLIMITED, OneByteFile(), steps)
    ensures w == OneByteFile().(openers := map[0 := Statted(false), 1 := Statted(false)])
  {
    steps, w := [], OneByteFile();
    steps, w := Go(steps, w, Find(0));
    steps, w := Go(steps, w, Find(1));
    steps, w := Go(steps, w, Stat(0));
    steps, w := Go(steps, w, Stat(1));
    assert w.openers == map[0 := Statted(false), 1 := Statted(false)];
  }

  /** Opener 0 has registered the Download but not launched it, opener 1 has found no cache file, and
      a third handle was given the registered Download. */
  lemma OpenFirst() returns (steps: seq<Step>, w: World)
    ensures IsRun(UNLIMITED, OneByteFile(), steps) && w == EndOf(UNLIMITED, OneByteFile(), steps)
    ensures w == World([7], [0], Row(Evicted, []), [NewDownload([]).(openCount := 2)], Some(0),
                       map[0 := Registered(0), 1 := Statted(false)])
  {
    steps, w := StatTwice();
    steps, w := RegisterFirst(steps, w);
    steps, w := Go(steps, w, Find(2));
    assert w.downloads == [NewDownload([]).(openCount := 2)];
  }

  lemma RegisterFirst(steps: seq<Step>, w: World) returns (longer: seq<Step>, v: World)
    requires IsRun(UNLIMITED, OneByteFile(), steps) && w == EndOf(UNLIMITED, OneByteFile(), steps)
    requires w == OneByteFile().(openers := map[0 := Statted(false), 1 := Statted(false)])
    ensures IsRun(UNLIMITED, OneByteFile(), longer) && v == EndOf(UNLIMITED, OneByteFile(), longer)
    ensures v == World([7], [0], Row(Evicted, []), [NewDownload([])], Some(0),
        map[0 := Registered(0), 1 := Statted(false)])
  {
    longer, v := Go(steps, w, OpenFile(0));
    longer, v := Go(longer, v, LoadRanges(0));
    longer, v := Go(longer, v, Register(0));
    assert v.downloads == [NewDownload([])] && v.disk == [0];
    assert v.openers == map[0 := Registered(0), 1 := Statted(false)];
  }

  /** Two handles open the uncached file at once and both find no cache file. The second truncates
      what the first has downloaded, and a reader is granted a byte that is not the remote's. */
  lemma TruncationRace() returns (steps: seq<Step>, w: World)
    ensures IsRun(UNLIMITED, OneByteFile(), steps) && w == EndOf(UNLIMITED, OneByteFile(), steps)
    ensures ReadAt(0, 0) in Possible(UNLIMITED, w) && w.downloads[0].readers[0] == Granted(0, 1)
    ensures ReadBytes(w.disk, 0, 1) == [0] && ReadBytes(w.remote, 0, 1) == [7]
  {
    steps, w := FetchFirst();
    steps, w := TruncateLate(steps, w);
    steps, w := GrantByte(steps, w);
  }

  /** The first handle's Download has the byte, the second handle is about to open the file. */
  lemma FetchFirst() returns (steps: seq<Step>, w: World)
    ensures IsRun(UNLIMITED, OneByteFile(), steps) && w == EndOf(UNLIMITED, OneByteFile(), steps)
    ensures |w.downloads| == 1 && w == World([7], [7], Row(Evicted, []), w.downloads, Some(0),
                                             map[0 := Registered(0), 1 := Statted(false)])
    ensures w.downloads[0].workers == map[1 := STREAMED] && w.downloads[0].readers == map[0 := Waiting(0, 1, true)]
    ensures Fetched(w.downloads[0])
  {
    steps, w := OpenFirst();
    steps, w := FetchByte(steps, w);
  }

  lemma TruncateLate(steps: seq<Step>, w: World) returns (longer: seq<Step>, v: World)
    requires IsRun(UNLIMITED, OneByteFile(), steps) && w == EndOf(UNLIMITED, OneByteFile(), steps)
    requires w.remote == [7] && 1 in w.openers && w.openers[1] == Statted(false)
    ensures IsRun(UNLIMITED, OneByteFile(), longer) && v == EndOf(UNLIMITED, OneByteFile(), longer)
    ensures v.remote == [7] && v.disk == [0] && v.downloads == w.downloads
  {
    longer, v := Go(steps, w, OpenFile(1));
    assert v.disk == [0];
  }

  lemma GrantByte(steps: seq<Step>, w: World) returns (longer: seq<Step>, v: World)
    requires IsRun(UNLIMITED, OneByteFile(), steps) && w == EndOf(UNLIMITED, OneByteFile(), steps)
    requires w.remote == [7] && w.disk == [0] && |w.downloads| == 1 && Fetched(w.downloads[0])
    requires w.downloads[0].readers == map[0 := Waiting(0, 1, true)]
    ensures IsRun(UNLIMITED, OneByteFile(), longer) && v == EndOf(UNLIMITED, OneByteFile(), longer)
    ensures |v.downloads| == 1 && v.downloads[0].readers == map[0 := Granted(0, 1)]
    ensures ReadAt(0, 0) in Possible(UNLIMITED, v)
    ensures ReadBytes(v.disk, 0, 1) == [0] && ReadBytes(v.remote, 0, 1) == [7]
  {
    longer, v := Go(steps, w, Recheck(0, 0));
    assert v.disk == [0] && v.remote == [7];
  }

  /** A second handle reads the whole file before the first opener launches the Download: `finish` is
      scheduled twice. */
  lemma FinishTwice() returns (steps: seq<Step>, w: World)
    ensures IsRun(UNLIMITED, OneByteFile(), steps) && w == EndOf(UNLIMITED, OneByteFile(), steps)
    ensures |w.downloads| == 1 && w.downloads[0].finishes == 2
  {
    steps, w := FetchFirst();
    steps, w := LeaveAtEnd(steps, w);
    steps, w := LaunchLate(steps, w);
  }

  /** The goroutine reaches the end of the file and exits as the last one. */
  lemma LeaveAtEnd(steps: seq<Step>, w: World) returns (longer: seq<Step>, v: World)
    requires IsRun(UNLIMITED, OneByteFile(), steps) && w == EndOf(UNLIMITED, OneByteFile(), steps)
    requires |w.downloads| == 1 && w.downloads[0].workers == map[1 := STREAMED] && w.remote == [7]
    requires Fetched(w.downloads[0])
    ensures IsRun(UNLIMITED, OneByteFile(), longer) && v == EndOf(UNLIMITED, OneByteFile(), longer)
    ensures |v.downloads| == 1 && v == w.(downloads := v.downloads)
    ensures v.downloads[0].finishes == 1 && CoversRange(v.downloads[0].ranges, 0, 1)
  {
    var dl := w.downloads[0];
    longer, v := Go(steps, w, Proceed(0, 1));
    PhaseOfOne(w.downloads, Ready);
    longer, v := ReachEnd(longer, v);
    longer, v := LeaveLast(longer, v);
  }

  lemma ReachEnd(steps: seq<Step>, w: World) returns (longer: seq<Step>, v: World)
    requires IsRun(UNLIMITED, OneByteFile(), steps) && w == EndOf(UNLIMITED, OneByteFile(), steps)
    requires |w.downloads| == 1 && w.downloads[0].workers == map[1 := STREAMED.(phase := Ready)]
    ensures IsRun(UNLIMITED, OneByteFile(), longer) && v == EndOf(UNLIMITED, OneByteFile(), longer)
    ensures v == w.(downloads := [w.downloads[0].(workers := map[1 := STREAMED.(phase := Leaving)])])
  {
    longer, v := Go(steps, w, EndOfStream(0, 1));
    PhaseOfOne(w.downloads, Leaving);
  }

  lemma LeaveLast(steps: seq<Step>, w: World) returns (longer: seq<Step>, v: World)
    requires IsRun(UNLIMITED, OneByteFile(), steps) && w == EndOf(UNLIMITED, OneByteFile(), steps)
    requires |w.downloads| == 1 && w.downloads[0].workers == map[1 := STREAMED.(phase := Leaving)] && w.remote == [7]
    requires Fetched(w.downloads[0])
    ensures IsRun(UNLIMITED, OneByteFile(), longer) && v == EndOf(UNLIMITED, OneByteFile(), longer)
    ensures |v.downloads| == 1 && v == w.(downloads := v.downloads)
    ensures v.downloads[0].finishes == 1 && v.downloads[0].ranges == w.downloads[0].ranges
  {
    longer, v := Go(steps, w, Exit(0, 1));
    assert v.downloads == [ExitWorker(w.downloads[0], 1, 1)];
  }

  lemma LaunchLate(steps: seq<Step>, w: World) returns (longer: seq<Step>, v: World)
    requires IsRun(UNLIMITED, OneByteFile(), steps) && w == EndOf(UNLIMITED, OneByteFile(), steps)
    requires |w.downloads| == 1 && Complete(w.downloads[0].ranges, |w.remote|)
    requires 0 in w.openers && w.openers[0] == Registered(0)
    ensures IsRun(UNLIMITED, OneByteFile(), longer) && v == EndOf(UNLIMITED, OneByteFile(), longer)
    ensures |v.downloads| == 1 && v.downloads[0].finishes == w.downloads[0].finishes + 1
  {
    longer, v := Go(steps, w, MarkDownloading(0, true));
    longer, v := Go(longer, v, Launch(0));
  }

  /** The goroutine of an early reader fails before the first opener launches the Download: the launch
      starts another goroutine although the error is recorded. */
  lemma LaunchMeetsError() returns (steps: seq<Step>, w: World)
    ensures IsRun(UNLIMITED, OneByteFile(), steps) && w == EndOf(UNLIMITED, OneByteFile(), steps)
    ensures |w.downloads| == 1 && w.downloads[0].err && 2 in w.downloads[0].workers
        && w.downloads[0].workers[2].phase.Ready?
  {
    steps, w := OpenFirst();
    steps, w := AskForByte(steps, w);
    steps, w := FailToRead(steps, w);
    steps, w := LaunchAnyway(steps, w);
  }

  lemma FailToRead(steps: seq<Step>, w: World) returns (longer: seq<Step>, v: World)
    requires IsRun(UNLIMITED, OneByteFile(), steps) && w == EndOf(UNLIMITED, OneByteFile(), steps)
    requires |w.downloads| == 1 && w.downloads[0].workers == map[1 := Worker(0, 0, true, false, Ready)]
    ensures IsRun(UNLIMITED, OneByteFile(), longer) && v == EndOf(UNLIMITED, OneByteFile(), longer)
    ensures |v.downloads| == 1 && v == w.(downloads := v.downloads)
    ensures v.downloads[0].err && v.downloads[0].ranges == w.downloads[0].ranges
        && v.downloads[0].nextId == w.downloads[0].nextId
  {
    longer, v := Go(steps, w, ReadFails(0, 1));
    PhaseOfOne(w.downloads, Failing);
    longer, v := FailNow(longer, v);
  }

  lemma FailNow(steps: seq<Step>, w: World) returns (longer: seq<Step>, v: World)
    requires IsRun(UNLIMITED, OneByteFile(), steps) && w == EndOf(UNLIMITED, OneByteFile(), steps)
    requires |w.downloads| == 1 && w.downloads[0].workers == map[1 := Worker(0, 0, true, false, Failing)]
    ensures IsRun(UNLIMITED, OneByteFile(), longer) && v == EndOf(UNLIMITED, OneByteFile(), longer)
    ensures v == w.(downloads := [RecordError(w.downloads[0], 1)])
  {
    longer, v := Go(steps, w, Fail(0, 1));
  }

  lemma LaunchAnyway(steps: seq<Step>, w: World) returns (longer: seq<Step>, v: World)
    requires IsRun(UNLIMITED, OneByteFile(), steps) && w == EndOf(UNLIMITED, OneByteFile(), steps)
    requires |w.downloads| == 1 && w.downloads[0].ranges == [] && w.downloads[0].err && w.downloads[0].nextId == 1
    requires w.remote == [7] && 0 in w.openers && w.openers[0] == Registered(0)
    ensures IsRun(UNLIMITED, OneByteFile(), longer) && v == EndOf(UNLIMITED, OneByteFile(), longer)
    ensures |v.downloads| == 1 && v.downloads[0].err && 2 in v.downloads[0].workers
        && v.downloads[0].workers[2].phase.Ready?
  {
    assert !Covers([], 0);
    longer, v := Go(steps, w, MarkDownloading(0, true));
    longer, v := Go(longer, v, Launch(0));
  }
}
