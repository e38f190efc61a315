/** How far the row lags behind the set: what a commit requests is what its checkpoint stores, and while the process
    lives fewer recorded bytes than `PERSIST_BYTES` are missing from the last request. */
module DownloadLag {
  import opened Basics
  import opened Ranges
  import opened Downloads
  import opened DownloadInvariant
  import opened DownloadSafety
  import opened DownloadRow

  /** The bytes of the file that are in `ranges` but not in `base`. */
  ghost function Missing(ranges: Intervals, base: Intervals, total: nat): set<int> {
    set b | 0 <= b < total && Covers(ranges, b) && !Covers(base, b)
  }

  /** The snapshot requested last, or what the Download resumed from. */
  function Requested(dl: Download, resumed: Intervals): Intervals {
    if dl.checkpoints.requested.Some? then dl.checkpoints.requested.value else resumed
  }

  /** The set has no more bytes beyond the last request than the counter says, and the counter is below the
      threshold. */
  ghost predicate Lagging(dl: Download, total: nat, resumed: Intervals) {
    |Missing(dl.ranges, Requested(dl, resumed), total)| <= dl.unpersisted < PERSIST_BYTES
  }

  lemma UnionSize(a: set<int>, b: set<int>, c: set<int>)
    requires forall x | x in a :: x in b || x in c
    ensures |a| <= |b| + |c|
  {
    assert a <= b + c by {
      forall x | x in a ensures x in b + c {
      }
    }
    assert b + c == a + (b + c - a);
    assert b + c == b + (c - b) && c == (c - b) + c * b;
  }

  lemma MissingByte(ranges: Intervals, base: Intervals, total: nat, pos: nat, n: nat, b: int)
    requires Canonical(ranges) && b in Missing(Added(ranges, pos, n), base, total)
    ensures b in Missing(ranges, base, total) || b in Span(pos, pos + n)
  {
    AddedView(ranges, pos, n);
    if !Covers(ranges, b) {
      assert Interval(pos, pos + n).Has(b);
    }
  }

  lemma MissingBytes(ranges: Intervals, base: Intervals, total: nat, pos: nat, n: nat, more: Intervals)
    requires Canonical(ranges) && more == Added(ranges, pos, n)
    ensures forall b | b in Missing(more, base, total) :: b in Missing(ranges, base, total) || b in Span(pos, pos + n)
  {
    forall b | b in Missing(more, base, total)
      ensures b in Missing(ranges, base, total) || b in Span(pos, pos + n)
    {
      MissingByte(ranges, base, total, pos, n, b);
    }
  }

  /** More bytes in the set: no more of them are missing from the base than were added. */
  lemma MissingGrows(ranges: Intervals, base: Intervals, total: nat, pos: nat, n: nat, more: Intervals)
    requires Canonical(ranges) && more == Added(ranges, pos, n)
    ensures |Missing(more, base, total)| <= |Missing(ranges, base, total)| + n
  {
    MissingBytes(ranges, base, total, pos, n, more);
    UnionSize(Missing(more, base, total), Missing(ranges, base, total), Span(pos, pos + n));
    SpanSize(pos, pos + n);
  }

  lemma CommitLags(dl: Download, total: nat, g: nat, timeUp: bool, resumed: Intervals)
    requires Sound(dl, total) && Lagging(dl, total, resumed) && g in dl.workers && dl.workers[g].phase.WroteChunk?
    ensures Lagging(CommitChunk(dl, total, g, timeUp), total, resumed)
  {
    var w, e := dl.workers[g], CommitChunk(dl, total, g, timeUp);
    MissingGrows(dl.ranges, Requested(dl, resumed), total, w.pos, w.phase.n, e.ranges);
    if timeUp || dl.unpersisted + w.phase.n >= PERSIST_BYTES {
      assert Requested(e, resumed) == e.ranges;
      assert Missing(e.ranges, e.ranges, total) == {};
    }
  }

  /** Nothing that the lag depends on changes. */
  predicate SameLag(d: Download, e: Download) {
    e.ranges == d.ranges && e.unpersisted == d.unpersisted && e.checkpoints.requested == d.checkpoints.requested
  }

  lemma WorkerStepLag(cfg: Config, w: World, s: Step)
    requires OfWorker(s) && s in Possible(cfg, w) && !s.Commit? && s.i < |w.downloads|
    ensures var d, e := w.downloads[s.i], Stepped(cfg, w, s); SameLag(d, e) && e.checkpoints == d.checkpoints
  {
  }

  lemma OtherStepLag(cfg: Config, w: World, s: Step)
    requires OnDownload(s) && !OfWorker(s) && s in Possible(cfg, w) && s.i < |w.downloads|
    ensures var d, e := w.downloads[s.i], Stepped(cfg, w, s);
      && SameLag(d, e) && (!s.FlushWrite? && !s.FlushNext? ==> e.checkpoints == d.checkpoints)
  {
    match s
    case Enter(i, r, offset, size) => EnterLag(w.downloads[i], w.Total(), r, offset, size);
    case _ =>
  }

  lemma EnterLag(dl: Download, total: nat, r: nat, offset: nat, size: nat)
    ensures var e := EnterWait(dl, total, r, offset, size); SameLag(dl, e) && e.checkpoints == dl.checkpoints
  {
  }

  lemma CommitCheckpoints(dl: Download, total: nat, g: nat, timeUp: bool)
    requires g in dl.workers && dl.workers[g].phase.WroteChunk?
    ensures var e := CommitChunk(dl, total, g, timeUp);
      if timeUp || dl.unpersisted + dl.workers[g].phase.n >= PERSIST_BYTES then
        e.checkpoints == Request(dl.checkpoints, e.ranges)
      else e.checkpoints == dl.checkpoints
  {
  }

  lemma OpenerStepLag(cfg: Config, w: World, s: Step, i: nat)
    requires s in Possible(cfg, w) && !OnDownload(s) && !s.Crash? && i < |w.downloads|
    ensures i < |After(cfg, w, s).downloads| && SameLag(w.downloads[i], After(cfg, w, s).downloads[i])
  {
  }

  lemma LagStep(cfg: Config, w: World, s: Step, i: nat, resumed: Intervals)
    requires WorldSound(w) && s in Possible(cfg, w) && !s.Crash? && i < |w.downloads|
    requires Lagging(w.downloads[i], w.Total(), resumed)
    ensures i < |After(cfg, w, s).downloads| && Lagging(After(cfg, w, s).downloads[i], w.Total(), resumed)
  {
    if OnDownload(s) {
      AfterOn(cfg, w, s);
      StepIndex(cfg, w, s);
      if s.Commit? {
        if s.i == i {
          CommitLags(w.downloads[i], w.Total(), s.g, s.timeUp, resumed);
        }
      } else if OfWorker(s) {
        WorkerStepLag(cfg, w, s);
      } else {
        OtherStepLag(cfg, w, s);
      }
    } else {
      OpenerStepLag(cfg, w, s, i);
    }
  }

  // ---------- The row follows the checkpoints ----------

  /** The row names what the Download has stored last, or what it resumed from. */
  predicate RowFollows(w: World, i: nat, resumed: Intervals) {
    && i < |w.downloads|
    && w.row.ranges == if w.downloads[i].checkpoints.stored == [] then resumed
                       else Last(w.downloads[i].checkpoints.stored)
  }

  /** The process lives, the row stays downloading, and only checkpoints of this Download are stored. */
  ghost predicate OnlyCheckpoints(cfg: Config, w: World, steps: seq<Step>, i: nat)
    requires IsRun(cfg, w, steps)
    decreases |steps|
  {
    && w.row.state.Downloading?
    && (steps != [] ==>
          && !steps[0].Crash? && (SomeStored(w, steps[0]) ==> steps[0].FlushWrite? && steps[0].i == i)
          && OnlyCheckpoints(cfg, After(cfg, w, steps[0]), steps[1..], i))
  }

  lemma StoredOn(cfg: Config, w: World, s: Step)
    requires OnDownload(s) && s in Possible(cfg, w) && s.i < |w.downloads|
    ensures var d, e := w.downloads[s.i].checkpoints, Stepped(cfg, w, s).checkpoints;
      if s.FlushWrite? && s.ok then s.j < |d.flushers| && e.stored == d.stored + [d.flushers[s.j].snap]
      else e.stored == d.stored
  {
    if s.Commit? {
      CommitCheckpoints(w.downloads[s.i], w.Total(), s.g, s.timeUp);
    } else if OfWorker(s) {
      WorkerStepLag(cfg, w, s);
    } else {
      OtherStepLag(cfg, w, s);
    }
  }

  lemma StoredOff(cfg: Config, w: World, s: Step, i: nat)
    requires s in Possible(cfg, w) && !OnDownload(s) && !s.Crash? && i < |w.downloads|
    ensures var v := After(cfg, w, s);
      i < |v.downloads| && v.downloads[i].checkpoints.stored == w.downloads[i].checkpoints.stored
  {
  }

  lemma FollowsStep(cfg: Config, w: World, s: Step, i: nat, resumed: Intervals)
    requires s in Possible(cfg, w) && RowFollows(w, i, resumed) && w.row.state.Downloading? && !s.Crash?
    requires SomeStored(w, s) ==> s.FlushWrite? && s.i == i
    ensures RowFollows(After(cfg, w, s), i, resumed)
  {
    StoreStep(cfg, w, s);
    if OnDownload(s) {
      AfterOn(cfg, w, s);
      StepIndex(cfg, w, s);
      StoredOn(cfg, w, s);
      if s.FlushWrite? && s.ok {
        assert Stores(w, s, w.downloads[s.i].checkpoints.flushers[s.j].snap);
      }
    } else {
      StoredOff(cfg, w, s, i);
    }
  }

  lemma CheckpointStep(cfg: Config, w: World, s: Step, i: nat, resumed: Intervals)
    requires s in Possible(cfg, w) && w.row.state.Downloading? && !s.Crash?
    requires SomeStored(w, s) ==> s.FlushWrite? && s.i == i
    requires WorldSound(w) && RowFollows(w, i, resumed) && Lagging(w.downloads[i], w.Total(), resumed)
    ensures var v := After(cfg, w, s);
      v.remote == w.remote && WorldSound(v) && RowFollows(v, i, resumed) && Lagging(v.downloads[i], v.Total(), resumed)
  {
    StepWorldSound(cfg, w, s);
    LagStep(cfg, w, s, i, resumed);
    FollowsStep(cfg, w, s, i, resumed);
    RemoteStays(cfg, w, s);
  }

  lemma RemoteStays(cfg: Config, w: World, s: Step)
    requires s in Possible(cfg, w)
    ensures After(cfg, w, s).remote == w.remote
  {
  }

  lemma {:induction false} CheckpointRun(cfg: Config, w: World, steps: seq<Step>, i: nat, resumed: Intervals)
    requires IsRun(cfg, w, steps) && OnlyCheckpoints(cfg, w, steps, i)
    requires WorldSound(w) && RowFollows(w, i, resumed) && Lagging(w.downloads[i], w.Total(), resumed)
    ensures var u := EndOf(cfg, w, steps);
      u.remote == w.remote && WorldSound(u) && RowFollows(u, i, resumed) && Lagging(u.downloads[i], u.Total(), resumed)
    decreases |steps|
  {
    if steps != [] {
      var v := After(cfg, w, steps[0]);
      CheckpointStep(cfg, w, steps[0], i, resumed);
      CheckpointRun(cfg, v, steps[1..], i, resumed);
    }
  }

  /** How much progress a crash can cost. Along every run in which the Download goes on, whenever no flusher is at
      work, fewer than `PERSIST_BYTES` of the bytes in the set are missing from the row. */
  lemma CrashCosts(cfg: Config, w: World, steps: seq<Step>, i: nat)
    requires WorldSound(w) && i < |w.downloads| && w.downloads[i] == NewDownload(w.row.ranges)
    requires IsRun(cfg, w, steps) && OnlyCheckpoints(cfg, w, steps, i)
    requires var u := EndOf(cfg, w, steps); i < |u.downloads| ==> u.downloads[i].checkpoints.flushers == []
    ensures var u := EndOf(cfg, w, steps);
      i < |u.downloads| && |Missing(u.downloads[i].ranges, u.row.ranges, u.Total())| < PERSIST_BYTES
  {
    assert Missing(w.row.ranges, w.row.ranges, w.Total()) == {};
    CheckpointRun(cfg, w, steps, i, w.row.ranges);
    var u := EndOf(cfg, w, steps);
    assert Sound(u.downloads[i], u.Total());
    assert Requested(u.downloads[i], w.row.ranges) == u.row.ranges;
  }

  // ---------- From the commit to the row ----------

  predicate OneFlusher(cp: Checkpoints, snap: Intervals) {
    cp.inFlight && cp.flushers == [Trying(snap)]
  }

  ghost predicate Flushing(w: World, i: nat, snap: Intervals) {
    i < |w.downloads| && OneFlusher(w.downloads[i].checkpoints, snap)
  }

  lemma FlushingOn(cfg: Config, w: World, s: Step, snap: Intervals)
    requires OnDownload(s) && s in Possible(cfg, w) && s.i < |w.downloads| && !s.FlushWrite?
    requires OneFlusher(w.downloads[s.i].checkpoints, snap)
    ensures OneFlusher(Stepped(cfg, w, s).checkpoints, snap)
  {
    if s.Commit? {
      CommitCheckpoints(w.downloads[s.i], w.Total(), s.g, s.timeUp);
    } else if OfWorker(s) {
      WorkerStepLag(cfg, w, s);
    } else {
      OtherStepLag(cfg, w, s);
    }
  }

  lemma FlushingStep(cfg: Config, w: World, s: Step, i: nat, snap: Intervals)
    requires s in Possible(cfg, w) && Flushing(w, i, snap) && !s.Crash? && !(s.FlushWrite? && s.i == i)
    ensures Flushing(After(cfg, w, s), i, snap)
  {
    if OnDownload(s) {
      AfterOn(cfg, w, s);
      StepIndex(cfg, w, s);
      if s.i == i {
        FlushingOn(cfg, w, s, snap);
      }
    }
  }

  lemma {:induction false} FlushingRun(cfg: Config, w: World, steps: seq<Step>, i: nat, snap: Intervals)
    requires IsRun(cfg, w, steps) && Flushing(w, i, snap)
    requires forall s | s in steps :: !s.Crash? && !(s.FlushWrite? && s.i == i)
    ensures Flushing(EndOf(cfg, w, steps), i, snap)
    decreases |steps|
  {
    if steps != [] {
      assert steps[0] in steps && forall s | s in steps[1..] :: s in steps;
      FlushingStep(cfg, w, steps[0], i, snap);
      FlushingRun(cfg, After(cfg, w, steps[0]), steps[1..], i, snap);
    }
  }

  /** When the counter reaches the threshold or the interval is over, a commit requests a checkpoint. If none is
      under way, its flusher stores exactly what the set held in the section of the commit, whatever else the
      process does until the write. */
  lemma CommitStores(cfg: Config, w: World, i: nat, g: nat, timeUp: bool, steps: seq<Step>)
    requires WorldSound(w) && Commit(i, g, timeUp) in Possible(cfg, w) && i < |w.downloads|
    requires !w.downloads[i].checkpoints.inFlight
    requires timeUp || w.downloads[i].unpersisted + w.downloads[i].workers[g].phase.n >= PERSIST_BYTES
    requires var v := After(cfg, w, Commit(i, g, timeUp));
      IsRun(cfg, v, steps) && forall s | s in steps :: !s.Crash? && !(s.FlushWrite? && s.i == i)
    ensures var v, u := After(cfg, w, Commit(i, g, timeUp)), EndOf(cfg, After(cfg, w, Commit(i, g, timeUp)), steps);
      && i < |v.downloads| && FlushWrite(i, 0, true) in Possible(cfg, u)
      && (u.row.state.Downloading? ==> Stores(u, FlushWrite(i, 0, true), v.downloads[i].ranges))
      && forall b :: Covers(v.downloads[i].ranges, b) <==>
           Covers(w.downloads[i].ranges, b) || InFlightByte(w.downloads[i].workers[g], b)
  {
    var v := After(cfg, w, Commit(i, g, timeUp));
    CommitFlushes(cfg, w, i, g, timeUp);
    FlushingRun(cfg, v, steps, i, v.downloads[i].ranges);
    FlushStores(cfg, EndOf(cfg, v, steps), i, v.downloads[i].ranges);
  }

  lemma CommitFlushes(cfg: Config, w: World, i: nat, g: nat, timeUp: bool)
    requires WorldSound(w) && Commit(i, g, timeUp) in Possible(cfg, w) && i < |w.downloads|
    requires !w.downloads[i].checkpoints.inFlight
    requires timeUp || w.downloads[i].unpersisted + w.downloads[i].workers[g].phase.n >= PERSIST_BYTES
    ensures var v := After(cfg, w, Commit(i, g, timeUp));
      && i < |v.downloads| && Flushing(v, i, v.downloads[i].ranges)
      && forall b :: Covers(v.downloads[i].ranges, b) <==>
           Covers(w.downloads[i].ranges, b) || InFlightByte(w.downloads[i].workers[g], b)
  {
    var dl := w.downloads[i];
    assert Sound(dl, w.Total());
    AfterOn(cfg, w, Commit(i, g, timeUp));
    CommitCheckpoints(dl, w.Total(), g, timeUp);
    AddedView(dl.ranges, dl.workers[g].pos, dl.workers[g].phase.n);
  }

  lemma FlushStores(cfg: Config, w: World, i: nat, snap: Intervals)
    requires Flushing(w, i, snap)
    ensures FlushWrite(i, 0, true) in Possible(cfg, w)
    ensures w.row.state.Downloading? ==> Stores(w, FlushWrite(i, 0, true), snap)
  {
  }
}
