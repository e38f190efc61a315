/** The safety theorems under conditions that callers can check: `Start` calls that do not overlap, and a
    row that claims nothing unless the cache file has its full size. What happens when pull has left
    a row that claims bytes of a file it removed. */
module DownloadSerial {
  import opened Basics
  import opened Paths
  import opened Ranges
  import opened Downloads
  import opened DownloadInvariant
  import opened DownloadSafety
  import Sync

  /** At most one `Start` call of the path is under way. */
  ghost predicate Alone(w: World) {
    forall o, x | o in w.openers && x in w.openers :: o == x
  }

  ghost predicate SerialOpens(cfg: Config, w: World, steps: seq<Step>)
    requires IsRun(cfg, w, steps)
    decreases |steps|
  {
    Alone(w) && (steps != [] ==> SerialOpens(cfg, After(cfg, w, steps[0]), steps[1..]))
  }

  /** A cache file that has not its full size holds nothing that anybody claims. */
  ghost predicate SizedOrUnclaimed(w: World) {
    |w.disk| == w.Total() || forall b | 0 <= b < w.Total() :: !Claims(w, b)
  }

  /** An opener that will truncate has seen a file of the wrong size, and it still is. */
  ghost predicate SawWrongSize(w: World) {
    forall o | o in w.openers && w.openers[o] == Statted(false) :: |w.disk| != w.Total()
  }

  lemma SizedStep(cfg: Config, w: World, s: Step)
    requires WorldSound(w) && s in Possible(cfg, w) && SizedOrUnclaimed(w)
    ensures SizedOrUnclaimed(After(cfg, w, s))
  {
    var v := After(cfg, w, s);
    if OnDownload(s) {
      AfterOn(cfg, w, s);
      StepIndex(cfg, w, s);
      DiskStepLength(cfg, w, s);
    } else if |v.disk| != v.Total() {
      UnsizedStep(cfg, w, s);
      forall b | 0 <= b < w.Total() ensures !Claims(v, b) {
        assert !Claims(w, b);
        UnsizedClaims(cfg, w, s, b);
      }
    }
  }

  /** While the file has a wrong size, no Download exists and no ranges are loaded. */
  lemma UnsizedStep(cfg: Config, w: World, s: Step)
    requires WorldSound(w) && s in Possible(cfg, w) && !OnDownload(s) && |After(cfg, w, s).disk| != w.Total()
    ensures |w.disk| != w.Total() && w.downloads == [] && !s.LoadRanges? && !s.Register?
  {
    assert s.LoadRanges? || s.Register? ==> OpenerSound(w, w.openers[s.o]);
  }

  lemma UnsizedClaims(cfg: Config, w: World, s: Step, b: int)
    requires s in Possible(cfg, w) && !OnDownload(s) && w.downloads == [] && !s.LoadRanges? && !s.Register?
    ensures Claims(After(cfg, w, s), b) ==> Claims(w, b)
  {
  }

  lemma WrongSizeStep(cfg: Config, w: World, s: Step)
    requires WorldSound(w) && s in Possible(cfg, w) && Alone(w) && SawWrongSize(w)
    ensures SawWrongSize(After(cfg, w, s))
  {
  }

  /** Without overlapping `Start` calls every truncation is harmless. */
  lemma {:induction false} SerialHarmless(cfg: Config, w: World, steps: seq<Step>)
    requires IsRun(cfg, w, steps) && SerialOpens(cfg, w, steps)
    requires WorldSound(w) && SizedOrUnclaimed(w) && SawWrongSize(w)
    ensures TruncationsHarmless(cfg, w, steps)
    decreases |steps|
  {
    if steps != [] {
      StepWorldSound(cfg, w, steps[0]);
      SizedStep(cfg, w, steps[0]);
      WrongSizeStep(cfg, w, steps[0]);
      SerialHarmless(cfg, After(cfg, w, steps[0]), steps[1..]);
    }
  }

  /** Before the process starts, with the row and the cache file in agreement. */
  ghost predicate CleanStart(w: World) {
    AtRest(w) && WorldSound(w) && Faithful(w) && CleanSized(w) && (|w.disk| == w.Total() || w.row.ranges == [])
  }

  lemma CleanStartSerial(cfg: Config, w: World, steps: seq<Step>)
    requires CleanStart(w) && IsRun(cfg, w, steps) && SerialOpens(cfg, w, steps)
    ensures TruncationsHarmless(cfg, w, steps)
  {
    SerialHarmless(cfg, w, steps);
  }

  /** The main theorem for callers: if `Start` calls do not overlap, then under every interleaving and
      after every crash a granted read finds the remote bytes, a clean row describes the remote file,
      and all that the row claims is on disk. */
  lemma SerialSafety(cfg: Config, w: World, steps: seq<Step>)
    requires CleanStart(w) && IsRun(cfg, w, steps) && SerialOpens(cfg, w, steps)
    ensures var v := EndOf(cfg, w, steps);
      && v.remote == w.remote
      && (forall b | 0 <= b < v.Total() && Covers(v.row.ranges, b) :: b < |v.disk| && v.disk[b] == v.remote[b])
      && (v.row.state.Clean? ==> v.disk == v.remote)
      && (forall i: nat, r: nat | ReadAt(i, r) in Possible(cfg, v) ::
            var x := v.downloads[i].readers[r];
                ReadBytes(v.disk, x.offset, x.size) == ReadBytes(v.remote, x.offset, x.size))
  {
    var v := EndOf(cfg, w, steps);
    CleanStartSerial(cfg, w, steps);
    RemoteFixed(cfg, w, steps);
    ClaimsOnDisk(cfg, w, steps);
    EndFaithful(cfg, w, steps);
    forall b | 0 <= b < v.Total() && Covers(v.row.ranges, b) ensures b < |v.disk| && v.disk[b] == v.remote[b] {
      assert Claims(v, b);
    }
    if v.row.state.Clean? {
      CleanFileIsRemote(cfg, w, steps);
    }
    forall i: nat, r: nat | ReadAt(i, r) in Possible(cfg, v)
      ensures var x := v.downloads[i].readers[r];
          ReadBytes(v.disk, x.offset, x.size) == ReadBytes(v.remote, x.offset, x.size)
    {
      ReadIsRemote(cfg, w, steps, i, r);
    }
  }

  // ---------- A row that outlived its file ----------

  /** The download world of one path of the cache. */
  function WorldOf(c: Sync.Cache, remote: Sync.Remote, p: Path): World
    requires p in c.rows && p in remote.nodes
  {
    var e := c.rows[p];
    World(remote.nodes[p].content, if p in c.files then c.files[p] else [],
          Row(e.state, if e.ranges.Some? then e.ranges.value else []), [], None, map[])
  }

  const OPENING := [Find(0), Stat(0), OpenFile(0)]

  lemma OpeningRun(cfg: Config, w: World)
    requires AtRest(w) && |w.disk| != w.Total()
    ensures IsRun(cfg, w, OPENING)
    ensures EndOf(cfg, w, OPENING) == w.(disk := Zeros(w.Total()), openers := map[0 := Opened])
  {
  }

  /** Pull evicts a row again when the remote is newer: it removes the cache file and keeps the ranges.
      The next `Start` creates a file of zeros and trusts those ranges. Its claims are right if and only
      if every claimed byte of the new remote content is zero. */
  lemma StartAfterReEvict(cfg: Config, c: Sync.Cache, strategy: Sync.Strategy, remote: Sync.Remote, p: Path)
    requires p in remote.nodes && p != [] && p in c.rows && remote.nodes[p].content != []
    requires remote.nodes[p].mtime > c.rows[p].remoteMtime && (c.rows[p].state.Clean? || c.rows[p].state.Evicted?)
    ensures var w := WorldOf(Sync.PullEntry(c, strategy, remote, p), remote, p);
      && IsRun(cfg, w, OPENING)
      && (Faithful(EndOf(cfg, w, OPENING)) <==>
            forall b | 0 <= b < w.Total() && c.rows[p].ranges.Some?
                && Covers(c.rows[p].ranges.value, b) :: w.remote[b] == 0)
  {
  }

  /** If the kept ranges cover the new file, the Download is complete at once: `finish` marks the row
      clean and the cache file holds zeros only. */
  lemma StaleFileTurnsClean(cfg: Config, w: World) returns (steps: seq<Step>, v: World)
    requires AtRest(w) && |w.disk| != w.Total() && Complete(w.row.ranges, w.Total())
    ensures IsRun(cfg, w, steps) && v == EndOf(cfg, w, steps)
    ensures v.disk == Zeros(w.Total()) && v.row == Row(Clean, w.row.ranges)
  {
    OpeningRun(cfg, w);
    steps, v := OPENING, EndOf(cfg, w, OPENING);
    steps, v := Extend(cfg, w, steps, v, LoadRanges(0));
    steps, v := Extend(cfg, w, steps, v, Register(0));
    assert v == w.(disk := Zeros(w.Total()), downloads := [NewDownload(w.row.ranges)], active := Some(0),
        openers := map[0 := Registered(0)]);
    steps, v := Extend(cfg, w, steps, v, MarkDownloading(0, true));
    steps, v := Finished(cfg, w, steps, v);
  }

  lemma Finished(cfg: Config, w: World, steps: seq<Step>, u: World) returns (longer: seq<Step>, v: World)
    requires IsRun(cfg, w, steps) && u == EndOf(cfg, w, steps)
    requires u.downloads == [NewDownload(u.row.ranges)] && u.openers == map[0 := Marked(0)]
        && Complete(u.row.ranges, u.Total())
    ensures IsRun(cfg, w, longer) && v == EndOf(cfg, w, longer)
    ensures v.disk == u.disk && v.row == Row(Clean, u.row.ranges)
  {
    longer, v := Extend(cfg, w, steps, u, Launch(0));
    assert v.downloads[0].jobs == [FinishStart] && v.downloads[0].ranges == u.row.ranges;
    longer, v := Extend(cfg, w, longer, v, RunJob(0, 0, true));
    assert v.downloads[0].jobs == [FinishPut(u.row.ranges)];
    longer, v := Extend(cfg, w, longer, v, RunJob(0, 0, true));
  }
}
