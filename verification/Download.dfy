/** One file's download as a transition system. A step is one critical section of the code, one
    write to the cache file, or one statement on the database row; any interleaving is a run. */
module Downloads {
  import opened Basics
  import opened Ranges

  const CHUNK_SIZE := 1048576
  const GOROUTINE_WINDOW := 2097152
  const PERSIST_BYTES := 5242880

  // ---------- State ----------

  /** Where a download goroutine is. `WroteChunk(n)`: n bytes are in the file but not yet in the set. */
  datatype Phase = Ready | WroteChunk(n: nat) | Pausing | Failing | Leaving

  datatype Worker = Worker(start: nat, pos: nat, sequential: bool, cancelled: bool, phase: Phase)

  /** A `WaitForRange` call that sleeps on the condition variable, or one that has returned nil and
      whose file read is still to come. */
  datatype Reader = Waiting(offset: nat, size: nat, woken: bool) | Granted(offset: nat, size: nat)

  /** A live checkpoint flusher, about to write, or after the write succeeded or failed. */
  datatype Flusher = Trying(snap: Intervals) | Stored(snap: Intervals) | Unstored(snap: Intervals)

  /** The goroutines that run `finish`, `cancel`, or the clean-up after an error. */
  datatype Job =
    | FinishStart | FinishPut(snap: Intervals) | FinishForget
    | ForgetFirst | CancelLock | CancelPut(snap: Intervals)
    | JobEnd

  /** Checkpoint coalescing. `requested` and `stored` record history: the snapshot asked for last and
      the snapshots whose write succeeded. */
  datatype Checkpoints = Checkpoints(
    inFlight: bool,
    pending: Option<Intervals>,
    flushers: seq<Flusher>,
    requested: Option<Intervals>,
    stored: seq<Intervals>)

  /** One `Download`. `finishes` and `cleanups` record how often `done` scheduled `finish` or the
      clean-up after an error. */
  datatype Download = Download(
    ranges: Intervals,
    workers: map<nat, Worker>,
    nextId: nat,
    done: bool,
    err: bool,
    prefetch: bool,
    lastReadPos: int,
    openCount: int,
    readers: map<nat, Reader>,
    unpersisted: nat,
    checkpoints: Checkpoints,
    jobs: seq<Job>,
    finishes: nat,
    cleanups: nat)

  function NewDownload(resumed: Intervals): Download {
    Download(resumed, map[], 0, false, false, false, 0, 1, map[], 0, Checkpoints(false, None, [], None, []), [], 0, 0)
  }

  datatype Row = Row(state: FileState, ranges: Intervals)

  /** A `Start` call between its first map lookup and its launch. */
  datatype Opener =
    | Missing | Statted(reuse: bool) | Opened | Resumed(ranges: Intervals) | Registered(dl: nat) | Marked(dl: nat)

  /** `disk` is the cache file ([] when it is absent), `downloads` every Download of the path since
      the process started, `active` the entry of the manager's map. */
  datatype World = World(
    remote: seq<Byte>,
    disk: seq<Byte>,
    row: Row,
    downloads: seq<Download>,
    active: Option<nat>,
    openers: map<nat, Opener>)
  {
    function Total(): nat {
      |remote|
    }
  }

  datatype Config = Config(readAhead: nat, idleTimeout: bool)

  datatype Step =
    | Crash
    | Find(o: nat) | Stat(o: nat) | OpenFile(o: nat) | LoadRanges(o: nat) | Register(o: nat)
    | MarkDownloading(o: nat, ok: bool) | Launch(o: nat)
    | CancelPath
    | Enter(i: nat, r: nat, offset: nat, size: nat) | Recheck(i: nat, r: nat) | ReadAt(i: nat, r: nat)
    | Hint(i: nat, offset: nat) | Promote(i: nat) | Release(i: nat)
    | Quit(i: nat, g: nat) | EndOfStream(i: nat, g: nat) | ReadFails(i: nat, g: nat)
    | Chunk(i: nat, g: nat, data: seq<Byte>) | WriteFails(i: nat, g: nat, data: seq<Byte>)
    | Fail(i: nat, g: nat) | Commit(i: nat, g: nat, timeUp: bool)
    | Proceed(i: nat, g: nat) | StopIdle(i: nat, g: nat) | StopYielding(i: nat, g: nat)
    | Exit(i: nat, g: nat)
    | FlushWrite(i: nat, j: nat, ok: bool) | FlushNext(i: nat, j: nat)
    | RunJob(i: nat, k: nat, ok: bool)

  // ---------- Critical sections of one Download ----------

  function Wake(r: Reader): Reader {
    if r.Waiting? then r.(woken := true) else r
  }

  function Broadcast(dl: Download): Download {
    dl.(readers := map r | r in dl.readers :: Wake(dl.readers[r]))
  }

  function SetReader(dl: Download, r: nat, x: Reader): Download {
    dl.(readers := dl.readers[r := x])
  }

  function SetPhase(dl: Download, g: nat, phase: Phase): Download
    requires g in dl.workers
  {
    dl.(workers := dl.workers[g := dl.workers[g].(phase := phase)])
  }

  function Spawn(dl: Download, start: nat, sequential: bool): Download {
    dl.(nextId := dl.nextId + 1,
        workers := dl.workers[dl.nextId + 1 := Worker(start, start, sequential, false, Ready)])
  }

  /** Within GOROUTINE_WINDOW of the offset, on either side. */
  predicate Near(w: Worker, offset: nat) {
    -GOROUTINE_WINDOW < offset - w.pos < GOROUTINE_WINDOW
  }

  predicate HasWorkerNear(dl: Download, offset: nat) {
    exists g :: g in dl.workers && Near(dl.workers[g], offset)
  }

  predicate FarBehind(w: Worker, offset: nat) {
    !w.sequential && offset - w.pos > GOROUTINE_WINDOW
  }

  function CancelWorkers(dl: Download): Download {
    dl.(workers := map g | g in dl.workers :: dl.workers[g].(cancelled := true))
  }

  function CancelFarBehind(dl: Download, offset: nat): Download {
    dl.(workers := map g | g in dl.workers ::
          if FarBehind(dl.workers[g], offset) then dl.workers[g].(cancelled := true) else dl.workers[g])
  }

  function ReadEnd(offset: nat, size: nat, total: nat): int {
    Min(offset + size, total)
  }

  /** The workers a reader that must wait finds or starts. */
  function Redirected(dl: Download, offset: nat): Download {
    if dl.workers == map[] then
      Spawn(dl, offset, true)
    else if HasWorkerNear(dl, offset) then
      dl
    else if dl.openCount == 1 then
      Spawn(CancelWorkers(dl), offset, true)
    else
      Spawn(dl, offset, false)
  }

  /** `waitForRange` up to its first return or its first wait. A reader that gets the error is gone. */
  ghost function EnterWait(dl: Download, total: nat, r: nat, offset: nat, size: nat): Download {
    if offset >= total then
      SetReader(dl, r, Granted(offset, size))
    else
      var end := ReadEnd(offset, size, total);
      var d := Broadcast(dl.(lastReadPos := Max(dl.lastReadPos, end)));
      if CoversRange(d.ranges, offset, end) then SetReader(d, r, Granted(offset, size))
      else if d.err then d
      else if d.done then SetReader(d, r, Granted(offset, size))
      else SetReader(CancelFarBehind(Redirected(d, offset), offset), r, Waiting(offset, size, false))
  }

  /** A woken waiter re-evaluates its loop condition. */
  ghost function RecheckWait(dl: Download, total: nat, r: nat): Download
    requires r in dl.readers && dl.readers[r].Waiting?
  {
    var Waiting(offset, size, _) := dl.readers[r];
    if !CoversRange(dl.ranges, offset, ReadEnd(offset, size, total)) && !dl.err && !dl.done then
      SetReader(if dl.workers == map[] then Spawn(dl, offset, true) else dl, r, Waiting(offset, size, false))
    else if dl.err then
      dl.(readers := dl.readers - {r})
    else
      SetReader(dl, r, Granted(offset, size))
  }

  ghost function HintAt(dl: Download, offset: nat): Download {
    if dl.done || dl.err || CoversRange(dl.ranges, offset, offset + CHUNK_SIZE) || HasWorkerNear(dl, offset) then dl
    else Spawn(dl, offset, false)
  }

  /** The least byte in [from, total) outside the set, or `total`. */
  ghost function FirstHole(ivs: Intervals, from: nat, total: nat): nat
    decreases total - from
  {
    if from >= total || !Covers(ivs, from) then from else FirstHole(ivs, from + 1, total)
  }

  /** The last part of `Start`, under the download's lock. */
  ghost function LaunchFirst(dl: Download, total: nat): Download {
    if Complete(dl.ranges, total) then
      dl.(done := true, finishes := dl.finishes + 1, jobs := dl.jobs + [FinishStart])
    else
      Spawn(dl, FirstHole(dl.ranges, 0, total), true)
  }

  function Request(cp: Checkpoints, snap: Intervals): Checkpoints {
    if cp.inFlight then cp.(pending := Some(snap), requested := Some(snap))
    else cp.(inFlight := true, flushers := cp.flushers + [Trying(snap)], requested := Some(snap))
  }

  function Persist(dl: Download): Download {
    dl.(unpersisted := 0, checkpoints := Request(dl.checkpoints, dl.ranges))
  }

  /** The critical section after a chunk reached the file. */
  ghost function CommitChunk(dl: Download, total: nat, g: nat, timeUp: bool): Download
    requires g in dl.workers && dl.workers[g].phase.WroteChunk?
  {
    var w := dl.workers[g];
    var pos := w.pos + w.phase.n;
    var ranges := Added(dl.ranges, w.pos, w.phase.n);
    var covered := CoversRange(ranges, pos, pos + CHUNK_SIZE) && pos + CHUNK_SIZE <= total;
    var phase := if w.sequential then Pausing else if covered then Leaving else Ready;
    var d := Broadcast(dl.(ranges := ranges,
                           workers := dl.workers[g := w.(pos := pos, phase := phase)],
                           unpersisted := dl.unpersisted + w.phase.n));
    if timeUp || d.unpersisted >= PERSIST_BYTES then Persist(d) else d
  }

  /** The sequential goroutine must not run further ahead of the reader. */
  predicate Throttled(cfg: Config, dl: Download, w: Worker) {
    cfg.readAhead > 0 && !dl.prefetch && w.pos > dl.lastReadPos + cfg.readAhead && !dl.done && !dl.err
  }

  function RecordError(dl: Download, g: nat): Download
    requires g in dl.workers
  {
    Broadcast(SetPhase(dl, g, Leaving).(err := true))
  }

  /** The deferred section of a download goroutine. */
  ghost function ExitWorker(dl: Download, total: nat, g: nat): Download {
    var d := dl.(workers := dl.workers - {g});
    Broadcast(
      if d.workers == map[] && Complete(d.ranges, total) && !d.done then
        d.(done := true, finishes := d.finishes + 1, jobs := d.jobs + [FinishStart])
      else if d.workers == map[] && d.err && !d.done then
        d.(done := true, cleanups := d.cleanups + 1, jobs := d.jobs + [ForgetFirst])
      else d)
  }

  /** The critical section of `cancel`. */
  function CancelSection(dl: Download): Download {
    Broadcast(CancelWorkers(dl).(err := true))
  }

  /** The outcome of the flusher's write, retries included. */
  function WriteDone(cp: Checkpoints, j: nat, ok: bool): Checkpoints
    requires j < |cp.flushers|
  {
    var snap := cp.flushers[j].snap;
    if ok then cp.(flushers := cp.flushers[j := Stored(snap)], stored := cp.stored + [snap])
    else cp.(flushers := cp.flushers[j := Unstored(snap)])
  }

  /** The flusher's critical section after its write: stop, or go on with the newest snapshot. */
  function NextFlush(cp: Checkpoints, j: nat): Checkpoints
    requires j < |cp.flushers|
  {
    if cp.pending.Some? then
      cp.(pending := None, flushers := cp.flushers[j := Trying(cp.pending.value)])
    else if cp.flushers[j].Unstored? then
      cp.(flushers := cp.flushers[j := Trying(cp.flushers[j].snap)])
    else
      cp.(inFlight := false, flushers := cp.flushers[..j] + cp.flushers[j + 1..])
  }

  /** Where a job goes on; the snapshot it will write is taken here. */
  function JobAfter(job: Job, ranges: Intervals): Job {
    match job
    case FinishStart => FinishPut(ranges)
    case FinishPut(_) => FinishForget
    case FinishForget => JobEnd
    case ForgetFirst => CancelLock
    case CancelLock => CancelPut(ranges)
    case CancelPut(_) => JobEnd
    case JobEnd => JobEnd
  }

  function NextJob(dl: Download, k: nat): Download
    requires k < |dl.jobs|
  {
    var d := if dl.jobs[k].CancelLock? then CancelSection(dl) else dl;
    d.(jobs := dl.jobs[k := JobAfter(dl.jobs[k], dl.ranges)])
  }

  // ---------- Steps of the world ----------

  function Zeros(n: nat): seq<Byte> {
    seq(n, i => 0 as Byte)
  }

  /** `data` written at `pos`. */
  function Patched(disk: seq<Byte>, pos: nat, data: seq<Byte>): seq<Byte>
    requires pos + |data| <= |disk|
  {
    disk[..pos] + data + disk[pos + |data|..]
  }

  ghost predicate IsWorker(w: World, i: nat, g: nat) {
    i < |w.downloads| && g in w.downloads[i].workers
  }

  ghost predicate InPhase(w: World, i: nat, g: nat, phase: Phase) {
    IsWorker(w, i, g) && w.downloads[i].workers[g].phase == phase
  }

  /** The next bytes of the stream the adapter opened at the worker's start. `Streaming` shows that
      such a stream carries the file's bytes from there on. */
  ghost predicate Streamed(w: World, pos: nat, data: seq<Byte>) {
    0 < |data| <= CHUNK_SIZE && pos + |data| <= w.Total() && data == w.remote[pos..pos + |data|]
  }

  ghost predicate Enabled(cfg: Config, w: World, s: Step) {
    match s
    case Crash => true
    case Find(o) => o !in w.openers
    case Stat(o) => o in w.openers && w.openers[o].Missing?
    case OpenFile(o) => o in w.openers && w.openers[o].Statted?
    case LoadRanges(o) => o in w.openers && w.openers[o].Opened?
    case Register(o) => o in w.openers && w.openers[o].Resumed?
    case MarkDownloading(o, _) => o in w.openers && w.openers[o].Registered?
    case Launch(o) => o in w.openers && w.openers[o].Marked? && w.openers[o].dl < |w.downloads|
    case CancelPath => w.active.Some? && w.active.value < |w.downloads|
    case Enter(i, r, _, _) => i < |w.downloads| && r !in w.downloads[i].readers
    case Recheck(i, r) =>
      && i < |w.downloads| && r in w.downloads[i].readers
      && w.downloads[i].readers[r].Waiting? && w.downloads[i].readers[r].woken
    case ReadAt(i, r) => i < |w.downloads| && r in w.downloads[i].readers && w.downloads[i].readers[r].Granted?
    case Hint(i, _) => i < |w.downloads|
    case Promote(i) => i < |w.downloads|
    case Release(i) => i < |w.downloads|
    case Quit(i, g) =>
      InPhase(w, i, g, Ready) && (w.downloads[i].workers[g].cancelled || w.downloads[i].workers[g].start >= w.Total())
    case EndOfStream(i, g) => InPhase(w, i, g, Ready)
    case ReadFails(i, g) => InPhase(w, i, g, Ready)
    case Chunk(i, g, data) =>
      && InPhase(w, i, g, Ready) && w.downloads[i].workers[g].start < w.Total()
      && |w.disk| == w.Total() && Streamed(w, w.downloads[i].workers[g].pos, data)
    case WriteFails(i, g, data) =>
      && InPhase(w, i, g, Ready) && w.downloads[i].workers[g].start < w.Total()
      && |w.disk| == w.Total() && (data == [] || Streamed(w, w.downloads[i].workers[g].pos, data))
    case Fail(i, g) => InPhase(w, i, g, Failing)
    case Commit(i, g, _) => IsWorker(w, i, g) && w.downloads[i].workers[g].phase.WroteChunk?
    case Proceed(i, g) => InPhase(w, i, g, Pausing) && !Throttled(cfg, w.downloads[i], w.downloads[i].workers[g])
    case StopIdle(i, g) =>
      InPhase(w, i, g, Pausing) && cfg.idleTimeout && Throttled(cfg, w.downloads[i], w.downloads[i].workers[g])
    case StopYielding(i, g) => InPhase(w, i, g, Pausing) && w.downloads[i].prefetch && w.active.None?
    case Exit(i, g) => InPhase(w, i, g, Leaving)
    case FlushWrite(i, j, _) =>
      i < |w.downloads| && j < |w.downloads[i].checkpoints.flushers| && w.downloads[i].checkpoints.flushers[j].Trying?
    case FlushNext(i, j) =>
      i < |w.downloads| && j < |w.downloads[i].checkpoints.flushers| && !w.downloads[i].checkpoints.flushers[j].Trying?
    case RunJob(i, k, _) => i < |w.downloads| && k < |w.downloads[i].jobs| && !w.downloads[i].jobs[k].JobEnd?
  }

  /** The steps that can happen next. */
  ghost function Possible(cfg: Config, w: World): iset<Step> {
    iset s | Enabled(cfg, w, s)
  }

  predicate OfWorker(s: Step) {
    || s.Quit? || s.EndOfStream? || s.ReadFails? || s.Chunk? || s.WriteFails? || s.Fail? || s.Commit?
    || s.Proceed? || s.StopIdle? || s.StopYielding? || s.Exit?
  }

  /** What a step does to the Download it runs on. */
  ghost function DownloadAfter(cfg: Config, total: nat, dl: Download, s: Step): Download
    requires s.Recheck? ==> s.r in dl.readers && dl.readers[s.r].Waiting?
    requires OfWorker(s) ==> s.g in dl.workers
    requires s.Commit? ==> dl.workers[s.g].phase.WroteChunk?
    requires s.FlushWrite? || s.FlushNext? ==> s.j < |dl.checkpoints.flushers|
    requires s.RunJob? ==> s.k < |dl.jobs|
  {
    match s
    case Enter(_, r, offset, size) => EnterWait(dl, total, r, offset, size)
    case Recheck(_, r) => RecheckWait(dl, total, r)
    case ReadAt(_, r) => dl.(readers := dl.readers - {r})
    case Hint(_, offset) => HintAt(dl, offset)
    case Promote(_) => Broadcast(dl.(prefetch := true))
    case Release(_) => dl.(openCount := dl.openCount - 1)
    case Quit(_, g) => SetPhase(dl, g, Leaving)
    case EndOfStream(_, g) => SetPhase(dl, g, Leaving)
    case ReadFails(_, g) => SetPhase(dl, g, if dl.workers[g].cancelled then Leaving else Failing)
    case Chunk(_, g, data) => SetPhase(dl, g, WroteChunk(|data|))
    case WriteFails(_, g, _) => SetPhase(dl, g, Failing)
    case Fail(_, g) => RecordError(dl, g)
    case Commit(_, g, timeUp) => CommitChunk(dl, total, g, timeUp)
    case Proceed(_, g) =>
      SetPhase(dl, g, if dl.workers[g].sequential && cfg.readAhead > 0 && (dl.done || dl.err) then Leaving else Ready)
    case StopIdle(_, g) => SetPhase(dl, g, Leaving)
    case StopYielding(_, g) => SetPhase(dl, g, Leaving)
    case Exit(_, g) => ExitWorker(dl, total, g)
    case FlushWrite(_, j, ok) => dl.(checkpoints := WriteDone(dl.checkpoints, j, ok))
    case FlushNext(_, j) => dl.(checkpoints := NextFlush(dl.checkpoints, j))
    case RunJob(_, k, _) => NextJob(dl, k)
    case _ => dl
  }

  function Counted(w: World, i: nat): World
    requires i < |w.downloads|
  {
    w.(downloads := w.downloads[i := w.downloads[i].(openCount := w.downloads[i].openCount + 1)])
  }

  /** `OpenOrCreate` decided to truncate. */
  predicate Truncates(w: World, s: Step) {
    s.OpenFile? && s.o in w.openers && w.openers[s.o] == Statted(false)
  }

  /** The step runs on the Download with index `s.i`. */
  predicate OnDownload(s: Step) {
    || OfWorker(s) || s.Enter? || s.Recheck? || s.ReadAt? || s.Hint? || s.Promote? || s.Release?
    || s.FlushWrite? || s.FlushNext? || s.RunJob?
  }

  /** The Download that a step runs on, before and after it. */
  ghost function Before(cfg: Config, w: World, s: Step): Download
    requires OnDownload(s) && s in Possible(cfg, w)
  {
    w.downloads[s.i]
  }

  ghost function Stepped(cfg: Config, w: World, s: Step): Download
    requires OnDownload(s) && s in Possible(cfg, w)
  {
    DownloadAfter(cfg, w.Total(), w.downloads[s.i], s)
  }

  ghost function DiskAfter(cfg: Config, w: World, s: Step): seq<Byte>
    requires OnDownload(s) && s in Possible(cfg, w)
  {
    match s
    case Chunk(i, g, data) => Patched(w.disk, w.downloads[i].workers[g].pos, data)
    case WriteFails(i, g, data) =>
      if data == [] then w.disk else Patched(w.disk, w.downloads[i].workers[g].pos, data)
    case _ => w.disk
  }

  /** A checkpoint is stored only while the row is downloading; `finish` and `cancel` write the row. */
  ghost function RowAfter(cfg: Config, w: World, s: Step): Row
    requires OnDownload(s) && s in Possible(cfg, w)
  {
    match s
    case FlushWrite(i, j, ok) =>
      if ok && w.row.state.Downloading? then w.row.(ranges := w.downloads[i].checkpoints.flushers[j].snap) else w.row
    case RunJob(i, k, ok) =>
      var job := w.downloads[i].jobs[k];
      if ok && job.FinishPut? then Row(Clean, job.snap)
      else if ok && job.CancelPut? then Row(Evicted, job.snap)
      else w.row
    case _ => w.row
  }

  /** `finish` and the error clean-up drop whatever entry the path has in the manager's map. */
  ghost function ActiveAfter(cfg: Config, w: World, s: Step): Option<nat>
    requires OnDownload(s) && s in Possible(cfg, w)
  {
    if s.RunJob? && (w.downloads[s.i].jobs[s.k].FinishForget? || w.downloads[s.i].jobs[s.k].ForgetFirst?) then None
    else w.active
  }

  ghost function AfterOnDownload(cfg: Config, w: World, s: Step): World
    requires OnDownload(s) && s in Possible(cfg, w)
  {
    World(w.remote, DiskAfter(cfg, w, s), RowAfter(cfg, w, s),
          w.downloads[s.i := Stepped(cfg, w, s)],
          ActiveAfter(cfg, w, s), w.openers)
  }

  ghost function After(cfg: Config, w: World, s: Step): World
    requires s in Possible(cfg, w)
  {
    match s
    case Crash => w.(downloads := [], active := None, openers := map[])
    case Find(o) =>
      if w.active.Some? && w.active.value < |w.downloads| then Counted(w, w.active.value)
      else w.(openers := w.openers[o := Missing])
    case Stat(o) => w.(openers := w.openers[o := Statted(|w.disk| == w.Total())])
    case OpenFile(o) =>
      w.(openers := w.openers[o := Opened], disk := if w.openers[o].reuse then w.disk else Zeros(w.Total()))
    case LoadRanges(o) => w.(openers := w.openers[o := Resumed(w.row.ranges)])
    case Register(o) =>
      if w.active.Some? && w.active.value < |w.downloads| then
        Counted(w, w.active.value).(openers := w.openers - {o})
      else
        w.(downloads := w.downloads + [NewDownload(w.openers[o].ranges)], active := Some(|w.downloads|),
           openers := w.openers[o := Registered(|w.downloads|)])
    case MarkDownloading(o, ok) =>
      w.(row := if ok then w.row.(state := Downloading) else w.row, openers := w.openers[o := Marked(w.openers[o].dl)])
    case Launch(o) =>
      var i := w.openers[o].dl;
      w.(downloads := w.downloads[i := LaunchFirst(w.downloads[i], w.Total())], openers := w.openers - {o})
    case CancelPath =>
      var i := w.active.value;
      w.(active := None, downloads := w.downloads[i := w.downloads[i].(jobs := w.downloads[i].jobs + [CancelLock])])
    case _ => AfterOnDownload(cfg, w, s)
  }

  // ---------- Runs ----------

  ghost predicate IsRun(cfg: Config, w: World, steps: seq<Step>)
    decreases |steps|
  {
    steps == [] || (steps[0] in Possible(cfg, w) && IsRun(cfg, After(cfg, w, steps[0]), steps[1..]))
  }

  /** The world after the run. */
  ghost function EndOf(cfg: Config, w: World, steps: seq<Step>): World
    requires IsRun(cfg, w, steps)
    decreases |steps|
  {
    if steps == [] then w else EndOf(cfg, After(cfg, w, steps[0]), steps[1..])
  }

  /** One more step at the end of a run. */
  lemma {:induction false} Extend(cfg: Config, w: World, steps: seq<Step>, u: World, s: Step)
      returns (longer: seq<Step>, v: World)
    requires IsRun(cfg, w, steps) && u == EndOf(cfg, w, steps) && s in Possible(cfg, u)
    ensures longer == steps + [s] && IsRun(cfg, w, longer)
    ensures v == EndOf(cfg, w, longer) && v == After(cfg, u, s)
    decreases |steps|
  {
    longer, v := steps + [s], After(cfg, u, s);
    if steps == [] {
      assert longer == [s];
      assert IsRun(cfg, v, []);
    } else {
      var rest, _ := Extend(cfg, After(cfg, w, steps[0]), steps[1..], u, s);
      assert longer[1..] == rest;
    }
  }

  /** No process runs yet: only the remote file, the cache file and the row exist. */
  ghost predicate AtRest(w: World) {
    w.downloads == [] && w.active.None? && w.openers == map[]
  }
}
