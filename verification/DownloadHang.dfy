/** A reachable read that hangs: seek far ahead, let the goroutine stream to its limit, and then read just
    before the place where it started. */
module DownloadHang {
  import opened Basics
  import opened Ranges
  import opened Downloads
  import opened DownloadInvariant
  import opened DownloadSafety
  import opened DownloadWait
  import opened DownloadLimit

  /** One byte of read-ahead and no idle timeout. */
  const TIGHT := Config(1, false)

  const SIZE := GOROUTINE_WINDOW + 4

  /** An uncached file, a little longer than the window. */
  function FarFile(): World {
    World(Zeros(SIZE), [], Row(Evicted, []), [], None, map[])
  }

  ghost predicate Reached(steps: seq<Step>, w: World) {
    IsRun(TIGHT, FarFile(), steps) && w == EndOf(TIGHT, FarFile(), steps)
  }

  lemma Go(steps: seq<Step>, w: World, s: Step) returns (longer: seq<Step>, v: World)
    requires Reached(steps, w) && s in Possible(TIGHT, w)
    ensures Reached(longer, v) && v == After(TIGHT, w, s)
  {
    longer, v := Extend(TIGHT, FarFile(), steps, w, s);
  }

  const FIRST := Worker(0, 0, true, false, Ready)
  const SECOND := Worker(GOROUTINE_WINDOW, GOROUTINE_WINDOW, true, false, Ready)
  const AHEAD := Worker(GOROUTINE_WINDOW, GOROUTINE_WINDOW + 3, true, false, Pausing)

  lemma OpenFar() returns (steps: seq<Step>, w: World)
    ensures Reached(steps, w) && |w.disk| == SIZE && w.remote == Zeros(SIZE)
    ensures w.downloads == [NewDownload([])] && w.openers == map[0 := Registered(0)]
  {
    steps, w := [], FarFile();
    steps, w := Go(steps, w, Find(0));
    steps, w := Go(steps, w, Stat(0));
    steps, w := Go(steps, w, OpenFile(0));
    steps, w := Go(steps, w, LoadRanges(0));
    steps, w := Go(steps, w, Register(0));
  }

  lemma LaunchFar(steps: seq<Step>, w: World) returns (longer: seq<Step>, v: World)
    requires Reached(steps, w) && |w.disk| == SIZE && w.remote == Zeros(SIZE)
    requires w.downloads == [NewDownload([])] && w.openers == map[0 := Registered(0)]
    ensures Reached(longer, v) && |v.disk| == SIZE && v.remote == Zeros(SIZE)
    ensures v.downloads == [LAUNCHED]
  {
    longer, v := Go(steps, w, MarkDownloading(0, true));
    assert !Covers([], 0);
    assert LaunchFirst(NewDownload([]), SIZE).workers == map[1 := FIRST];
    longer, v := Go(longer, v, Launch(0));
  }

  const LAUNCHED := NewDownload([]).(workers := map[1 := FIRST], nextId := 1)
  const SOUGHT := NewDownload([]).(
    workers := map[1 := FIRST.(cancelled := true), 2 := SECOND], nextId := 2,
    readers := map[0 := Waiting(GOROUTINE_WINDOW, 1, false)], lastReadPos := GOROUTINE_WINDOW + 1)

  /** A reader far ahead: the first goroutine is cancelled and a second one starts at the offset. */
  lemma SeekFar(steps: seq<Step>, w: World) returns (longer: seq<Step>, v: World)
    requires Reached(steps, w) && |w.disk| == SIZE && w.remote == Zeros(SIZE)
    requires w.downloads == [LAUNCHED]
    ensures Reached(longer, v) && |v.disk| == SIZE && v.remote == Zeros(SIZE)
    ensures |v.downloads| == 1 && v.downloads[0] == SOUGHT
  {
    SeekSection();
    longer, v := Go(steps, w, Enter(0, 0, GOROUTINE_WINDOW, 1));
  }

  lemma SeekRedirect(dl: Download)
    requires dl.workers == map[1 := FIRST] && dl.nextId == 1 && dl.openCount == 1
    ensures Redirected(dl, GOROUTINE_WINDOW)
        == dl.(workers := map[1 := FIRST.(cancelled := true), 2 := SECOND], nextId := 2)
  {
    assert !HasWorkerNear(dl, GOROUTINE_WINDOW);
    assert CancelWorkers(dl).workers == map[1 := FIRST.(cancelled := true)];
  }

  /** Both goroutines are sequential, so none is cancelled as far behind. */
  lemma SeekWorkers(dl: Download)
    requires dl.workers == map[1 := FIRST.(cancelled := true), 2 := SECOND]
    ensures CancelFarBehind(dl, GOROUTINE_WINDOW) == dl
  {
    assert CancelFarBehind(dl, GOROUTINE_WINDOW).workers == dl.workers;
  }

  lemma SeekSection()
    ensures EnterWait(LAUNCHED, SIZE, 0, GOROUTINE_WINDOW, 1) == SOUGHT
  {
    var d := Broadcast(LAUNCHED.(lastReadPos := GOROUTINE_WINDOW + 1));
    assert d.readers == map[];
    SeekRedirect(d);
    SeekWorkers(Redirected(d, GOROUTINE_WINDOW));
    assert !Covers([], GOROUTINE_WINDOW);
    assert EnterWait(LAUNCHED, SIZE, 0, GOROUTINE_WINDOW, 1).readers == map[0 := Waiting(GOROUTINE_WINDOW, 1, false)];
  }

  /** The second goroutine streams three bytes and pauses at its limit; the reader has its byte. */
  lemma StreamFar(steps: seq<Step>, w: World) returns (longer: seq<Step>, v: World)
    requires Reached(steps, w) && |w.disk| == SIZE && w.remote == Zeros(SIZE)
    requires |w.downloads| == 1 && w.downloads[0] == SOUGHT
    ensures Reached(longer, v) && v.remote == Zeros(SIZE) && |v.downloads| == 1
    ensures v.downloads[0] == Unread(STREAMING).(readers := map[0 := Waiting(GOROUTINE_WINDOW, 1, true)])
  {
    assert Zeros(3) == w.remote[GOROUTINE_WINDOW..GOROUTINE_WINDOW + 3];
    longer, v := Go(steps, w, Chunk(0, 2, Zeros(3)));
    assert v.downloads[0].workers == map[1 := FIRST.(cancelled := true), 2 := SECOND.(phase := WroteChunk(3))];
    longer, v := CommitFar(longer, v);
  }

  lemma CommitFar(steps: seq<Step>, w: World) returns (longer: seq<Step>, v: World)
    requires Reached(steps, w) && w.remote == Zeros(SIZE)
    requires |w.downloads| == 1 && w.downloads[0] == NewDownload([]).(
      workers := map[1 := FIRST.(cancelled := true), 2 := SECOND.(phase := WroteChunk(3))], nextId := 2,
      readers := map[0 := Waiting(GOROUTINE_WINDOW, 1, false)], lastReadPos := GOROUTINE_WINDOW + 1)
    ensures Reached(longer, v) && v.remote == Zeros(SIZE) && |v.downloads| == 1
    ensures v.downloads[0] == Unread(STREAMING).(readers := map[0 := Waiting(GOROUTINE_WINDOW, 1, true)])
  {
    longer, v := Go(steps, w, Commit(0, 2, false));
    var e := CommitChunk(w.downloads[0], SIZE, 2, false);
    assert v.downloads[0] == e;
    assert e.workers == map[1 := FIRST.(cancelled := true), 2 := AHEAD];
    assert e.readers == map[0 := Waiting(GOROUTINE_WINDOW, 1, true)];
  }

  /** The Download when nobody reads: three bytes streamed. */
  function Unread(workers: map<nat, Worker>): Download {
    NewDownload([]).(
      workers := workers, nextId := 2, ranges := Added([], GOROUTINE_WINDOW, 3),
      lastReadPos := GOROUTINE_WINDOW + 1, unpersisted := 3)
  }

  const STREAMING := map[1 := FIRST.(cancelled := true), 2 := AHEAD]

  /** The reader wakes up and takes its byte. */
  lemma WakeFar(steps: seq<Step>, w: World) returns (longer: seq<Step>, v: World)
    requires Reached(steps, w) && w.remote == Zeros(SIZE) && |w.downloads| == 1
    requires w.downloads[0] == Unread(STREAMING).(readers := map[0 := Waiting(GOROUTINE_WINDOW, 1, true)])
    ensures Reached(longer, v) && v.remote == Zeros(SIZE) && |v.downloads| == 1
    ensures v.downloads[0] == Unread(STREAMING).(readers := map[0 := Granted(GOROUTINE_WINDOW, 1)])
  {
    AddedView([], GOROUTINE_WINDOW, 3);
    longer, v := Go(steps, w, Recheck(0, 0));
    assert v.downloads[0].readers == map[0 := Granted(GOROUTINE_WINDOW, 1)];
  }

  lemma ReadFar(steps: seq<Step>, w: World) returns (longer: seq<Step>, v: World)
    requires Reached(steps, w) && w.remote == Zeros(SIZE) && |w.downloads| == 1
    requires w.downloads[0] == Unread(STREAMING).(readers := map[0 := Granted(GOROUTINE_WINDOW, 1)])
    ensures Reached(longer, v) && v.remote == Zeros(SIZE) && |v.downloads| == 1
    ensures v.downloads[0] == Unread(STREAMING)
  {
    longer, v := Go(steps, w, ReadAt(0, 0));
    assert v.downloads[0].readers == map[];
  }

  const QUITTING := map[1 := FIRST.(cancelled := true, phase := Leaving), 2 := AHEAD]

  lemma QuitFar(steps: seq<Step>, w: World) returns (longer: seq<Step>, v: World)
    requires Reached(steps, w) && w.remote == Zeros(SIZE) && |w.downloads| == 1
    requires w.downloads[0] == Unread(STREAMING)
    ensures Reached(longer, v) && v.remote == Zeros(SIZE) && |v.downloads| == 1
    ensures v.downloads[0] == Unread(QUITTING)
  {
    longer, v := Go(steps, w, Quit(0, 1));
    assert SetPhase(w.downloads[0], 1, Leaving).workers == QUITTING;
    assert v.downloads == [SetPhase(w.downloads[0], 1, Leaving)];
  }

  lemma ExitFar(steps: seq<Step>, w: World) returns (longer: seq<Step>, v: World)
    requires Reached(steps, w) && w.remote == Zeros(SIZE) && |w.downloads| == 1
    requires w.downloads[0] == Unread(QUITTING)
    ensures Reached(longer, v) && v.remote == Zeros(SIZE) && |v.downloads| == 1
    ensures v.downloads[0] == Unread(map[2 := AHEAD])
  {
    ExitSection();
    longer, v := Go(steps, w, Exit(0, 1));
    assert v.downloads == [ExitWorker(w.downloads[0], SIZE, 1)];
  }

  lemma ExitSection()
    ensures ExitWorker(Unread(QUITTING), SIZE, 1) == Unread(map[2 := AHEAD])
  {
    assert QUITTING - {1} == map[2 := AHEAD] && 2 in QUITTING - {1};
    assert ExitWorker(Unread(QUITTING), SIZE, 1).readers == map[];
  }

  /** The second read begins one byte before the stream. Its goroutine counts as near, so no other is
      started, and it stays behind its limit: the read hangs. */
  lemma ReadHangs() returns (steps: seq<Step>, w: World)
    ensures AtRest(FarFile()) && Reached(steps, w)
    ensures |w.downloads| == 1 && 1 in w.downloads[0].readers && w.downloads[0].readers[1] == Waiting(BEFORE, 1, false)
    ensures Stuck(TIGHT, w, 0, 1)
    ensures forall more | WaitingRun(TIGHT, w, 0, 1, more) && Unhelped(0, more) :: !Grants(TIGHT, w, 0, 1, more)
  {
    steps, w := OpenFar();
    steps, w := LaunchFar(steps, w);
    steps, w := SeekFar(steps, w);
    steps, w := StreamFar(steps, w);
    steps, w := WakeFar(steps, w);
    steps, w := ReadFar(steps, w);
    steps, w := QuitFar(steps, w);
    steps, w := ExitFar(steps, w);
    steps, w := HangFar(steps, w);
  }

  const BEFORE := GOROUTINE_WINDOW - 1

  /** The Download before the second call, with its goroutine at `pos`. */
  function Streamed(pos: nat, phase: Phase): Download
    requires GOROUTINE_WINDOW <= pos
  {
    Unread(map[2 := Worker(GOROUTINE_WINDOW, pos, true, false, phase)]).(
      ranges := Added([], GOROUTINE_WINDOW, pos - GOROUTINE_WINDOW))
  }

  /** Wherever the goroutine is on its way to the limit or to the end of the file, the call is doomed, also
      when nothing is throttled yet. */
  lemma NearFar(pos: nat, phase: Phase)
    requires GOROUTINE_WINDOW < pos <= SIZE && (phase.Pausing? || (phase.Ready? && pos < SIZE))
    ensures var dl := Streamed(pos, phase);
      && HasWorkerNear(dl, BEFORE) && !CoversRange(dl.ranges, BEFORE, ReadEnd(BEFORE, 1, SIZE))
      && AllPlain(dl, BEFORE, ReadEnd(BEFORE, 1, SIZE)) && FaultFree(dl, SIZE)
      && DoomedCall(TIGHT, dl, SIZE, BEFORE, 1)
  {
    AddedView([], GOROUTINE_WINDOW, pos - GOROUTINE_WINDOW);
    var dl := Streamed(pos, phase);
    assert !Covers(dl.ranges, BEFORE);
    assert Near(dl.workers[2], BEFORE) && Blocker(SIZE, dl.workers[2]);
    assert Unreached(dl, BEFORE);
  }

  /** The world before the second call. */
  ghost predicate BeforeCall(w: World) {
    && WorldSound(w) && w.remote == Zeros(SIZE) && |w.downloads| == 1 && w.downloads[0] == Unread(map[2 := AHEAD])
    && CALL in Possible(TIGHT, w)
  }

  const CALL := Enter(0, 1, BEFORE, 1)

  lemma CallSleeps(w: World)
    requires BeforeCall(w)
    ensures var v := After(TIGHT, w, CALL);
      |v.downloads| == 1 && 1 in v.downloads[0].readers && v.downloads[0].readers[1] == Waiting(BEFORE, 1, false)
  {
    NearFar(GOROUTINE_WINDOW + 3, Pausing);
    assert w.downloads[0] == Streamed(GOROUTINE_WINDOW + 3, Pausing);
    EnterBlocked(w.downloads[0], SIZE, 1, BEFORE, 1);
    AfterOn(TIGHT, w, CALL);
  }

  lemma CallHangs(w: World)
    requires BeforeCall(w)
    ensures Stuck(TIGHT, After(TIGHT, w, CALL), 0, 1)
  {
    NearFar(GOROUTINE_WINDOW + 3, Pausing);
    assert w.downloads[0] == Streamed(GOROUTINE_WINDOW + 3, Pausing);
    HangsExactly(TIGHT, w, 0, 1, BEFORE, 1);
  }

  lemma CallNeverGranted(w: World)
    requires BeforeCall(w)
    ensures var v := After(TIGHT, w, CALL);
      forall more | WaitingRun(TIGHT, v, 0, 1, more) && Unhelped(0, more) :: !Grants(TIGHT, v, 0, 1, more)
  {
    NearFar(GOROUTINE_WINDOW + 3, Pausing);
    assert w.downloads[0] == Streamed(GOROUTINE_WINDOW + 3, Pausing);
    GrantedExactly(TIGHT, w, 0, 1, BEFORE, 1);
  }

  lemma HangFar(steps: seq<Step>, w: World) returns (longer: seq<Step>, v: World)
    requires Reached(steps, w) && w.remote == Zeros(SIZE) && |w.downloads| == 1
    requires w.downloads[0] == Unread(map[2 := AHEAD])
    ensures Reached(longer, v)
    ensures |v.downloads| == 1 && 1 in v.downloads[0].readers && v.downloads[0].readers[1] == Waiting(BEFORE, 1, false)
    ensures Stuck(TIGHT, v, 0, 1)
    ensures forall more | WaitingRun(TIGHT, v, 0, 1, more) && Unhelped(0, more) :: !Grants(TIGHT, v, 0, 1, more)
  {
    longer, v := Go(steps, w, CALL);
    RunSound(TIGHT, FarFile(), steps);
    assert BeforeCall(w);
    CallSleeps(w);
    CallHangs(w);
    CallNeverGranted(w);
  }
}
