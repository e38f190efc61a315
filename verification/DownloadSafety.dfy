/** Safety over whole runs: what a reader gets is the remote file, and what the database row claims
    is on disk, under every interleaving and at every crash point. */
module DownloadSafety {
  import opened Basics
  import opened Ranges
  import opened Downloads
  import opened DownloadInvariant

  // ---------- Structure ----------

  ghost predicate OpenerSound(w: World, x: Opener) {
    match x
    case Missing => true
    case Statted(reuse) => reuse ==> |w.disk| == w.Total()
    case Opened => |w.disk| == w.Total()
    case Resumed(ranges) => |w.disk| == w.Total() && Canonical(ranges)
    case Registered(i) => i < |w.downloads|
    case Marked(i) => i < |w.downloads|
  }

  /** A row that says clean says the whole file is cached. */
  ghost predicate RowSound(row: Row, total: nat) {
    Canonical(row.ranges) && (row.state.Clean? ==> Complete(row.ranges, total))
  }

  ghost predicate WorldSound(w: World) {
    && (forall i | 0 <= i < |w.downloads| :: Sound(w.downloads[i], w.Total()))
    && RowSound(w.row, w.Total())
    && (forall o | o in w.openers :: OpenerSound(w, w.openers[o]))
    && (w.downloads != [] ==> |w.disk| == w.Total())
    && (w.active.Some? ==> w.active.value < |w.downloads|)
  }

  lemma RowStepSound(cfg: Config, w: World, s: Step)
    requires WorldSound(w) && s in Possible(cfg, w) && OnDownload(s)
    ensures RowSound(RowAfter(cfg, w, s), w.Total())
    ensures forall b | Covers(RowAfter(cfg, w, s).ranges, b) ::
      Covers(w.row.ranges, b) || Covers(w.downloads[s.i].ranges, b)
  {
  }

  lemma AfterOn(cfg: Config, w: World, s: Step)
    requires s in Possible(cfg, w) && OnDownload(s)
    ensures After(cfg, w, s) == AfterOnDownload(cfg, w, s)
  {
  }

  lemma StepIndex(cfg: Config, w: World, s: Step)
    requires s in Possible(cfg, w) && OnDownload(s)
    ensures s.i < |w.downloads|
  {
  }

  lemma DiskStepLength(cfg: Config, w: World, s: Step)
    requires s in Possible(cfg, w) && OnDownload(s)
    ensures |DiskAfter(cfg, w, s)| == |w.disk|
    ensures ActiveAfter(cfg, w, s) == w.active || ActiveAfter(cfg, w, s).None?
  {
  }

  lemma OnDownloadWorldSound(cfg: Config, w: World, s: Step)
    requires WorldSound(w) && s in Possible(cfg, w) && OnDownload(s)
    ensures WorldSound(AfterOnDownload(cfg, w, s))
  {
    StepIndex(cfg, w, s);
    StepSound(cfg, w, s);
    RowStepSound(cfg, w, s);
    DiskStepLength(cfg, w, s);
    var e, disk := Stepped(cfg, w, s), DiskAfter(cfg, w, s);
    ReplacedWorldSound(w, s.i, e, disk, RowAfter(cfg, w, s), ActiveAfter(cfg, w, s));
  }

  lemma ReplacedWorldSound(w: World, i: nat, e: Download, disk: seq<Byte>, row: Row, active: Option<nat>)
    requires WorldSound(w) && i < |w.downloads| && Sound(e, w.Total())
    requires |disk| == |w.disk| && RowSound(row, w.Total()) && (active == w.active || active.None?)
    ensures WorldSound(World(w.remote, disk, row, w.downloads[i := e], active, w.openers))
  {
  }

  lemma OpenerStepDownloads(cfg: Config, w: World, s: Step, i: nat)
    requires WorldSound(w) && s in Possible(cfg, w) && !OnDownload(s) && i < |After(cfg, w, s).downloads|
    ensures Sound(After(cfg, w, s).downloads[i], w.Total())
  {
    if i < |w.downloads| {
      assert Sound(w.downloads[i], w.Total());
      if s.Launch? {
        LaunchSound(w.downloads[i], w.Total());
      } else if s.CancelPath? {
        AppendJob(w.downloads[i].ranges, w.Total(), w.downloads[i].jobs, CancelLock);
      }
    } else {
      assert OpenerSound(w, w.openers[s.o]);
      NewDownloadSound(w.openers[s.o].ranges, w.Total());
    }
  }

  lemma OpenersStay(cfg: Config, w: World, s: Step)
    requires WorldSound(w) && s in Possible(cfg, w) && !OnDownload(s)
    ensures var v := After(cfg, w, s); forall o | o in v.openers :: OpenerSound(v, v.openers[o])
  {
    var v := After(cfg, w, s);
    if s.Register? || s.MarkDownloading? {
      assert OpenerSound(w, w.openers[s.o]);
    }
    forall o | o in v.openers ensures OpenerSound(v, v.openers[o]) {
      if o in w.openers {
        assert OpenerSound(w, w.openers[o]);
      }
    }
  }

  lemma OpenerStepFiles(cfg: Config, w: World, s: Step)
    requires WorldSound(w) && s in Possible(cfg, w) && !OnDownload(s)
    ensures var v := After(cfg, w, s);
      && v.remote == w.remote && RowSound(v.row, v.Total()) && (v.downloads != [] ==> |v.disk| == v.Total())
      && (v.active.Some? ==> v.active.value < |v.downloads|)
  {
    if s.Register? {
      assert OpenerSound(w, w.openers[s.o]);
    }
  }

  lemma OpenerStepWorldSound(cfg: Config, w: World, s: Step)
    requires WorldSound(w) && s in Possible(cfg, w) && !OnDownload(s)
    ensures WorldSound(After(cfg, w, s))
  {
    var v := After(cfg, w, s);
    OpenerStepFiles(cfg, w, s);
    forall i | 0 <= i < |v.downloads| ensures Sound(v.downloads[i], v.Total()) {
      OpenerStepDownloads(cfg, w, s, i);
    }
    OpenersStay(cfg, w, s);
  }

  /** Every step of every process keeps the structure. */
  lemma StepWorldSound(cfg: Config, w: World, s: Step)
    requires WorldSound(w) && s in Possible(cfg, w)
    ensures WorldSound(After(cfg, w, s))
  {
    if OnDownload(s) {
      AfterOn(cfg, w, s);
      OnDownloadWorldSound(cfg, w, s);
    } else {
      OpenerStepWorldSound(cfg, w, s);
    }
  }

  // ---------- Claims ----------

  ghost predicate InFlightByte(w: Worker, b: int) {
    w.phase.WroteChunk? && w.pos <= b < w.pos + w.phase.n
  }

  /** The Download holds byte b for cached, or is about to. */
  ghost predicate DownloadClaims(ranges: Intervals, workers: map<nat, Worker>, b: int) {
    Covers(ranges, b) || exists g :: g in workers && InFlightByte(workers[g], b)
  }

  ghost predicate OpenerClaims(x: Opener, b: int) {
    x.Resumed? && Covers(x.ranges, b)
  }

  ghost predicate SomeDownloadClaims(downloads: seq<Download>, b: int) {
    exists i :: 0 <= i < |downloads| && DownloadClaims(downloads[i].ranges, downloads[i].workers, b)
  }

  ghost predicate SomeOpenerClaims(openers: map<nat, Opener>, b: int) {
    exists o :: o in openers && OpenerClaims(openers[o], b)
  }

  ghost predicate Claims(w: World, b: int) {
    || Covers(w.row.ranges, b)
    || SomeDownloadClaims(w.downloads, b)
    || SomeOpenerClaims(w.openers, b)
  }

  /** Every byte that the row, a Download or an opener claims is the remote's byte on disk. */
  ghost predicate Faithful(w: World) {
    forall b | 0 <= b < w.Total() && Claims(w, b) :: b < |w.disk| && w.disk[b] == w.remote[b]
  }

  /** No byte is claimed but those that are zero in the remote file as well. */
  ghost predicate Harmless(w: World) {
    forall b | 0 <= b < w.Total() && Claims(w, b) :: w.remote[b] == 0
  }

  /** The byte this step writes to the file. */
  ghost predicate Writes(w: World, s: Step, b: int) {
    s.Chunk? && IsWorker(w, s.i, s.g)
        && w.downloads[s.i].workers[s.g].pos <= b < w.downloads[s.i].workers[s.g].pos + |s.data|
  }

  lemma CommitClaims(dl: Download, total: nat, g: nat, timeUp: bool, b: int)
    requires Canonical(dl.ranges) && g in dl.workers && dl.workers[g].phase.WroteChunk?
    ensures var d := CommitChunk(dl, total, g, timeUp);
      DownloadClaims(d.ranges, d.workers, b) ==> DownloadClaims(dl.ranges, dl.workers, b)
  {
    var w, d := dl.workers[g], CommitChunk(dl, total, g, timeUp);
    AddedView(dl.ranges, w.pos, w.phase.n);
    if Covers(d.ranges, b) {
      assert Covers(dl.ranges, b) || InFlightByte(w, b);
    } else if h :| h in d.workers && InFlightByte(d.workers[h], b) {
      assert h in dl.workers && InFlightByte(dl.workers[h], b);
    }
  }

  /** No worker of `after` holds unrecorded bytes that it did not hold before. */
  ghost predicate HoldsNoMore(before: Download, after: Download) {
    && after.ranges == before.ranges
    && forall g | g in after.workers && after.workers[g].phase.WroteChunk? ::
         g in before.workers && after.workers[g].pos == before.workers[g].pos
             && after.workers[g].phase == before.workers[g].phase
  }

  lemma HoldsNoMoreClaims(before: Download, after: Download, b: int)
    requires HoldsNoMore(before, after)
    ensures DownloadClaims(after.ranges, after.workers, b) ==> DownloadClaims(before.ranges, before.workers, b)
  {
  }

  lemma CancelHolds(dl: Download, offset: nat)
    ensures HoldsNoMore(dl, CancelWorkers(dl)) && HoldsNoMore(dl, CancelFarBehind(dl, offset))
  {
  }

  lemma HoldsTransitive(a: Download, b: Download, c: Download)
    requires HoldsNoMore(a, b) && HoldsNoMore(b, c)
    ensures HoldsNoMore(a, c)
  {
  }

  lemma RedirectHolds(dl: Download, offset: nat)
    ensures HoldsNoMore(dl, Redirected(dl, offset))
  {
  }

  lemma EnterHolds(dl: Download, total: nat, r: nat, offset: nat, size: nat)
    ensures HoldsNoMore(dl, EnterWait(dl, total, r, offset, size))
  {
    var d := Broadcast(dl.(lastReadPos := Max(dl.lastReadPos, ReadEnd(offset, size, total))));
    var e := EnterWait(dl, total, r, offset, size);
    if e.workers != dl.workers {
      RedirectHolds(d, offset);
      CancelHolds(Redirected(d, offset), offset);
      HoldsTransitive(d, Redirected(d, offset), CancelFarBehind(Redirected(d, offset), offset));
      assert HoldsNoMore(d, e);
    }
  }

  lemma JobHolds(dl: Download, k: nat)
    requires k < |dl.jobs|
    ensures HoldsNoMore(dl, NextJob(dl, k))
  {
  }

  lemma OtherStepHolds(cfg: Config, w: World, s: Step)
    requires s in Possible(cfg, w) && OnDownload(s) && !OfWorker(s)
    ensures HoldsNoMore(w.downloads[s.i], Stepped(cfg, w, s))
  {
    var dl := w.downloads[s.i];
    match s
    case Enter(_, r, offset, size) => EnterHolds(dl, w.Total(), r, offset, size);
    case RunJob(_, k, _) => JobHolds(dl, k);
    case _ =>
  }

  lemma WorkerStepHolds(cfg: Config, w: World, s: Step)
    requires s in Possible(cfg, w) && OfWorker(s) && !s.Commit? && !s.Chunk?
    ensures HoldsNoMore(w.downloads[s.i], Stepped(cfg, w, s))
  {
  }

  lemma ChunkClaims(dl: Download, g: nat, n: nat, b: int)
    requires g in dl.workers && DownloadClaims(dl.ranges, SetPhase(dl, g, WroteChunk(n)).workers, b)
    ensures DownloadClaims(dl.ranges, dl.workers, b) || dl.workers[g].pos <= b < dl.workers[g].pos + n
  {
  }

  /** Only a write to the file lets a Download claim a new byte. */
  lemma DownloadClaimsStep(cfg: Config, w: World, s: Step, b: int)
    requires OnDownload(s) && s in Possible(cfg, w) && Canonical(w.downloads[s.i].ranges)
    requires var e := Stepped(cfg, w, s); DownloadClaims(e.ranges, e.workers, b)
    ensures DownloadClaims(w.downloads[s.i].ranges, w.downloads[s.i].workers, b) || Writes(w, s, b)
  {
    var d, e := w.downloads[s.i], Stepped(cfg, w, s);
    if s.Commit? {
      CommitClaims(d, w.Total(), s.g, s.timeUp, b);
    } else if s.Chunk? {
      ChunkClaims(d, s.g, |s.data|, b);
    } else {
      if OfWorker(s) {
        WorkerStepHolds(cfg, w, s);
      } else {
        OtherStepHolds(cfg, w, s);
      }
      HoldsNoMoreClaims(d, e, b);
    }
  }

  /** What is claimed after a step was claimed before or is written by it. */
  lemma ClaimsStep(cfg: Config, w: World, s: Step, v: World, b: int)
    requires WorldSound(w) && s in Possible(cfg, w) && v == After(cfg, w, s) && Claims(v, b)
    ensures Claims(w, b) || Writes(w, s, b)
  {
    if OnDownload(s) {
      AfterOn(cfg, w, s);
      OnDownloadClaims(cfg, w, s, v, b);
    } else {
      OpenerStepClaims(cfg, w, s, v, b);
    }
  }

  lemma OnDownloadClaims(cfg: Config, w: World, s: Step, v: World, b: int)
    requires WorldSound(w) && s in Possible(cfg, w) && OnDownload(s) && v == AfterOnDownload(cfg, w, s) && Claims(v, b)
    ensures Claims(w, b) || Writes(w, s, b)
  {
    StepIndex(cfg, w, s);
    if Covers(v.row.ranges, b) {
      RowStepSound(cfg, w, s);
      assert Covers(w.row.ranges, b) || DownloadClaims(w.downloads[s.i].ranges, w.downloads[s.i].workers, b);
    } else if SomeDownloadClaims(v.downloads, b) {
      assert v.downloads == w.downloads[s.i := Stepped(cfg, w, s)];
      ReplacedClaims(cfg, w, s, b);
    }
  }

  lemma ReplacedClaims(cfg: Config, w: World, s: Step, b: int)
    requires WorldSound(w) && s in Possible(cfg, w) && OnDownload(s) && s.i < |w.downloads|
    requires SomeDownloadClaims(w.downloads[s.i := Stepped(cfg, w, s)], b)
    ensures SomeDownloadClaims(w.downloads, b) || Writes(w, s, b)
  {
    var after := w.downloads[s.i := Stepped(cfg, w, s)];
    var i :| 0 <= i < |after| && DownloadClaims(after[i].ranges, after[i].workers, b);
    if i == s.i {
      DownloadClaimsStep(cfg, w, s, b);
    }
    assert DownloadClaims(w.downloads[i].ranges, w.downloads[i].workers, b) || Writes(w, s, b);
  }

  lemma LaunchHolds(dl: Download, total: nat)
    ensures HoldsNoMore(dl, LaunchFirst(dl, total))
  {
  }

  lemma OpenerStepKeeps(cfg: Config, w: World, s: Step, i: nat)
    requires s in Possible(cfg, w) && !OnDownload(s) && !s.Launch? && i < |w.downloads|
        && i < |After(cfg, w, s).downloads|
    ensures var v := After(cfg, w, s);
      v.downloads[i].ranges == w.downloads[i].ranges && v.downloads[i].workers == w.downloads[i].workers
  {
  }

  /** A step of `Start` or of `Cancel` lets no Download hold more than before. */
  lemma OpenerStepHolds(cfg: Config, w: World, s: Step, i: nat)
    requires s in Possible(cfg, w) && !OnDownload(s) && i < |w.downloads| && i < |After(cfg, w, s).downloads|
    ensures HoldsNoMore(w.downloads[i], After(cfg, w, s).downloads[i])
  {
    if s.Launch? {
      LaunchHolds(w.downloads[i], w.Total());
      assert After(cfg, w, s).downloads
          == w.downloads[w.openers[s.o].dl := LaunchFirst(w.downloads[w.openers[s.o].dl], w.Total())];
    } else {
      OpenerStepKeeps(cfg, w, s, i);
    }
  }

  lemma OpenerStepDownloadClaims(cfg: Config, w: World, s: Step, i: nat, b: int)
    requires WorldSound(w) && s in Possible(cfg, w) && !OnDownload(s) && i < |After(cfg, w, s).downloads|
    requires DownloadClaims(After(cfg, w, s).downloads[i].ranges, After(cfg, w, s).downloads[i].workers, b)
    ensures i < |w.downloads| ==> DownloadClaims(w.downloads[i].ranges, w.downloads[i].workers, b)
    ensures i >= |w.downloads| ==> SomeOpenerClaims(w.openers, b)
  {
    var v := After(cfg, w, s);
    if i >= |w.downloads| {
      assert OpenerClaims(w.openers[s.o], b);
    } else {
      OpenerStepHolds(cfg, w, s, i);
      HoldsNoMoreClaims(w.downloads[i], v.downloads[i], b);
    }
  }

  lemma OpenerStepOpeners(cfg: Config, w: World, s: Step, b: int)
    requires WorldSound(w) && s in Possible(cfg, w) && !OnDownload(s) && SomeOpenerClaims(After(cfg, w, s).openers, b)
    ensures Covers(w.row.ranges, b) || SomeOpenerClaims(w.openers, b)
  {
    var v := After(cfg, w, s);
    var o :| o in v.openers && OpenerClaims(v.openers[o], b);
    if !(s.LoadRanges? && o == s.o) {
      assert o in w.openers && OpenerClaims(w.openers[o], b);
    }
  }

  lemma OpenerStepClaims(cfg: Config, w: World, s: Step, v: World, b: int)
    requires WorldSound(w) && s in Possible(cfg, w) && !OnDownload(s) && v == After(cfg, w, s) && Claims(v, b)
    ensures Claims(w, b)
  {
    assert v.row.ranges == w.row.ranges;
    if SomeDownloadClaims(v.downloads, b) {
      var i :| 0 <= i < |v.downloads| && DownloadClaims(v.downloads[i].ranges, v.downloads[i].workers, b);
      OpenerStepDownloadClaims(cfg, w, s, i, b);
    } else if SomeOpenerClaims(v.openers, b) {
      OpenerStepOpeners(cfg, w, s, b);
    }
  }

  /** Bytes that are right stay right, except through a truncating open. */
  lemma DiskStep(cfg: Config, w: World, s: Step, b: int)
    requires s in Possible(cfg, w) && !Truncates(w, s) && 0 <= b < w.Total()
    requires (b < |w.disk| && w.disk[b] == w.remote[b]) || (Writes(w, s, b) && |w.disk| == w.Total())
    ensures var v := After(cfg, w, s); b < |v.disk| && v.disk[b] == w.remote[b]
  {
  }

  /** One step keeps faithfulness exactly when it is not a truncation of claimed bytes. */
  lemma StepFaithful(cfg: Config, w: World, s: Step)
    requires WorldSound(w) && Faithful(w) && s in Possible(cfg, w)
    ensures Faithful(After(cfg, w, s)) <==> (Truncates(w, s) ==> Harmless(w))
  {
    var v := After(cfg, w, s);
    if Truncates(w, s) {
      forall b ensures Claims(v, b) <==> Claims(w, b) {
        TruncationClaims(cfg, w, s, b);
      }
      assert forall b | 0 <= b < w.Total() :: v.disk[b] == 0;
    } else {
      forall b | 0 <= b < v.Total() && Claims(v, b) ensures b < |v.disk| && v.disk[b] == v.remote[b] {
        ClaimsStep(cfg, w, s, v, b);
        DiskStep(cfg, w, s, b);
      }
    }
  }

  lemma TruncationClaims(cfg: Config, w: World, s: Step, b: int)
    requires s in Possible(cfg, w) && Truncates(w, s)
    ensures Claims(After(cfg, w, s), b) <==> Claims(w, b)
  {
    var v := After(cfg, w, s);
    if o :| o in w.openers && OpenerClaims(w.openers[o], b) {
      assert o in v.openers && OpenerClaims(v.openers[o], b);
    }
    if o :| o in v.openers && OpenerClaims(v.openers[o], b) {
      assert o in w.openers && OpenerClaims(w.openers[o], b);
    }
  }

  // ---------- Whole runs ----------

  ghost predicate FaithfulThroughout(cfg: Config, w: World, steps: seq<Step>)
    requires IsRun(cfg, w, steps)
    decreases |steps|
  {
    Faithful(w) && (steps != [] ==> FaithfulThroughout(cfg, After(cfg, w, steps[0]), steps[1..]))
  }

  ghost predicate TruncationsHarmless(cfg: Config, w: World, steps: seq<Step>)
    requires IsRun(cfg, w, steps)
    decreases |steps|
  {
    steps != [] ==>
      && (Truncates(w, steps[0]) ==> Harmless(w))
      && TruncationsHarmless(cfg, After(cfg, w, steps[0]), steps[1..])
  }

  lemma {:induction false} RunSound(cfg: Config, w: World, steps: seq<Step>)
    requires IsRun(cfg, w, steps) && WorldSound(w)
    ensures WorldSound(EndOf(cfg, w, steps))
    decreases |steps|
  {
    if steps != [] {
      StepWorldSound(cfg, w, steps[0]);
      RunSound(cfg, After(cfg, w, steps[0]), steps[1..]);
    }
  }

  /** Crash-safe resume, and its exact limit. Along any run, crashes and restarts included, every byte
      claimed by the row or a Download is on disk in every state, if and only if no `OpenOrCreate`
      truncated the file while a byte that is not zero anyway was claimed. */
  lemma {:induction false} ClaimsOnDisk(cfg: Config, w: World, steps: seq<Step>)
    requires IsRun(cfg, w, steps) && WorldSound(w) && Faithful(w)
    ensures FaithfulThroughout(cfg, w, steps) <==> TruncationsHarmless(cfg, w, steps)
    decreases |steps|
  {
    if steps != [] {
      StepFaithful(cfg, w, steps[0]);
      StepWorldSound(cfg, w, steps[0]);
      if Truncates(w, steps[0]) ==> Harmless(w) {
        ClaimsOnDisk(cfg, After(cfg, w, steps[0]), steps[1..]);
      } else {
        assert !Faithful(After(cfg, w, steps[0]));
      }
    }
  }

  lemma {:induction false} EndFaithful(cfg: Config, w: World, steps: seq<Step>)
    requires IsRun(cfg, w, steps) && FaithfulThroughout(cfg, w, steps)
    ensures Faithful(EndOf(cfg, w, steps))
    decreases |steps|
  {
    if steps != [] {
      EndFaithful(cfg, After(cfg, w, steps[0]), steps[1..]);
    }
  }

  /** A truncation while nothing is cached or running, as in the first `Start` of an uncached file,
      is harmless. */
  lemma FirstOpenHarmless(w: World)
    requires w.row.ranges == [] && w.downloads == [] && forall o | o in w.openers :: !w.openers[o].Resumed?
    ensures Harmless(w)
  {
  }

  /** A read of `size` bytes at `offset`, cut off at the end of the file. */
  function ReadBytes(bytes: seq<Byte>, offset: nat, size: nat): seq<Byte> {
    if offset >= |bytes| then [] else bytes[offset..Min(offset + size, |bytes|)]
  }

  /** Read refinement. Whenever `WaitForRange` has returned nil, in whatever state the file read then
      happens, the bytes it finds in the cache file are those of a direct read of the remote. */
  lemma ReadIsRemote(cfg: Config, w: World, steps: seq<Step>, i: nat, r: nat)
    requires AtRest(w) && WorldSound(w) && Faithful(w)
    requires IsRun(cfg, w, steps) && TruncationsHarmless(cfg, w, steps)
    requires ReadAt(i, r) in Possible(cfg, EndOf(cfg, w, steps))
    ensures var v := EndOf(cfg, w, steps);
      var reader := v.downloads[i].readers[r];
      ReadBytes(v.disk, reader.offset, reader.size) == ReadBytes(v.remote, reader.offset, reader.size)
  {
    var v := EndOf(cfg, w, steps);
    RunSound(cfg, w, steps);
    ClaimsOnDisk(cfg, w, steps);
    EndFaithful(cfg, w, steps);
    var dl, reader := v.downloads[i], v.downloads[i].readers[r];
    assert Sound(dl, v.Total());
    assert ReaderSound(dl.ranges, v.Total(), reader);
    forall b | reader.offset <= b < ReadEnd(reader.offset, reader.size, v.Total())
      ensures v.disk[b] == v.remote[b]
    {
      assert DownloadClaims(dl.ranges, dl.workers, b);
      assert Claims(v, b);
    }
  }

  /** A cache file whose row says clean has its full size. */
  ghost predicate CleanSized(w: World) {
    w.row.state.Clean? ==> |w.disk| == w.Total()
  }

  lemma CleanSizedStep(cfg: Config, w: World, s: Step)
    requires WorldSound(w) && CleanSized(w) && s in Possible(cfg, w)
    ensures CleanSized(After(cfg, w, s))
  {
    if OnDownload(s) {
      AfterOn(cfg, w, s);
      StepIndex(cfg, w, s);
      DiskStepLength(cfg, w, s);
    }
  }

  lemma {:induction false} CleanSizedRun(cfg: Config, w: World, steps: seq<Step>)
    requires IsRun(cfg, w, steps) && WorldSound(w) && CleanSized(w)
    ensures CleanSized(EndOf(cfg, w, steps))
    decreases |steps|
  {
    if steps != [] {
      StepWorldSound(cfg, w, steps[0]);
      CleanSizedStep(cfg, w, steps[0]);
      CleanSizedRun(cfg, After(cfg, w, steps[0]), steps[1..]);
    }
  }

  /** In every state, right after a crash too, a row that says clean describes a file equal to the
      remote one. */
  lemma CleanFileIsRemote(cfg: Config, w: World, steps: seq<Step>)
    requires AtRest(w) && WorldSound(w) && Faithful(w) && CleanSized(w)
    requires IsRun(cfg, w, steps) && TruncationsHarmless(cfg, w, steps)
    requires EndOf(cfg, w, steps).row.state.Clean?
    ensures EndOf(cfg, w, steps).disk == EndOf(cfg, w, steps).remote
  {
    var v := EndOf(cfg, w, steps);
    RunSound(cfg, w, steps);
    CleanSizedRun(cfg, w, steps);
    ClaimsOnDisk(cfg, w, steps);
    EndFaithful(cfg, w, steps);
    forall b | 0 <= b < v.Total() ensures v.disk[b] == v.remote[b] {
      assert Covers(v.row.ranges, b);
      assert Claims(v, b);
    }
  }

  lemma {:induction false} RemoteFixed(cfg: Config, w: World, steps: seq<Step>)
    requires IsRun(cfg, w, steps)
    ensures EndOf(cfg, w, steps).remote == w.remote
    decreases |steps|
  {
    if steps != [] {
      RemoteFixed(cfg, After(cfg, w, steps[0]), steps[1..]);
    }
  }
}
