/** Background prefetch yields to readers: the sequential goroutines of all downloads, the counts of
    open handles per path, and the condition variable between them. */
module Foreground {
  import opened Basics

  /** Where a sequential goroutine is: before the check of its cancel channel, reading, after the commit
      of a chunk, in the yield loop, asleep in it, or past it. */
  datatype Phase = Top | Reading | Committed | Looping | Sleeping(woken: bool) | Past | Gone

  /** `dl` is the Download it belongs to, `chunks` counts the chunks it has added. */
  datatype Worker = Worker(dl: nat, path: string, cancelled: bool, phase: Phase, chunks: nat)

  /** `marks` is foregroundPaths, `live` the paths in the manager's map, `prefetch` the Downloads that were
      prefetched, `handles` the started read handles, `closing` the releases whose unmark is still to come. */
  datatype State = State(
    marks: map<string, int>,
    live: set<string>,
    prefetch: set<nat>,
    workers: map<nat, Worker>,
    handles: map<nat, string>,
    closing: map<nat, string>)

  datatype Step =
    | StartHandle(h: nat, path: string) | BeginRelease(h: nat, r: nat) | EndRelease(r: nat)
    | Register(path: string) | Cancel(path: string) | Forget(path: string)
    | CancelWorkers(dl: nat) | SetPrefetch(dl: nat)
    | Spawn(g: nat, dl: nat, path: string)
    | Check(g: nat) | ReadChunk(g: nat) | ReadEnds(g: nat) | Decide(g: nat) | Loop(g: nat) | GoOn(g: nat, stop: bool)

  // ---------- The counts ----------

  function Marked(marks: map<string, int>, path: string): map<string, int> {
    marks[path := (if path in marks then marks[path] else 0) + 1]
  }

  function Unmarked(marks: map<string, int>, path: string): map<string, int> {
    var n := (if path in marks then marks[path] else 0) - 1;
    if n <= 0 then marks - {path} else marks[path := n]
  }

  class Marks {
    var counts: map<string, int>

    constructor ()
      ensures counts == map[]
    {
      counts := map[];
    }

    method MarkForeground(path: string)
      modifies this
      ensures counts == Marked(old(counts), path)
    {
      if path !in counts {
        counts := counts[path := 0];
      }
      counts := counts[path := counts[path] + 1];
      assert counts == Marked(old(counts), path);
    }

    method UnmarkForeground(path: string)
      modifies this
      ensures counts == Unmarked(old(counts), path)
    {
      if path !in counts {
        counts := counts[path := 0];
      }
      counts := counts[path := counts[path] - 1];
      if counts[path] <= 0 {
        counts := counts - {path};
      }
      assert counts == Unmarked(old(counts), path);
    }
  }

  // ---------- Steps ----------

  function Wake(w: Worker): Worker {
    if w.phase.Sleeping? then w.(phase := Sleeping(true)) else w
  }

  function WakeAll(workers: map<nat, Worker>): map<nat, Worker> {
    map g | g in workers :: Wake(workers[g])
  }

  function CancelAll(workers: map<nat, Worker>, dl: nat): map<nat, Worker> {
    map g | g in workers :: if workers[g].dl == dl then workers[g].(cancelled := true) else workers[g]
  }

  predicate Yields(s: State, path: string) {
    s.marks != map[] && path !in s.marks
  }

  predicate Enabled(s: State, step: Step) {
    match step
    case StartHandle(h, _) => h !in s.handles
    case BeginRelease(h, r) => h in s.handles && r !in s.closing
    case EndRelease(r) => r in s.closing
    case Spawn(g, _, _) => g !in s.workers
    case Check(g) => g in s.workers && s.workers[g].phase.Top?
    case ReadChunk(g) => g in s.workers && s.workers[g].phase.Reading?
    case ReadEnds(g) => g in s.workers && s.workers[g].phase.Reading?
    case Decide(g) => g in s.workers && s.workers[g].phase.Committed?
    case Loop(g) => g in s.workers && (s.workers[g].phase.Looping? || s.workers[g].phase == Sleeping(true))
    case GoOn(g, _) => g in s.workers && s.workers[g].phase.Past?
    case _ => true
  }

  /** What the step makes of the goroutine that takes it. */
  function WorkerAfter(s: State, w: Worker, step: Step): Worker {
    match step
    case Check(_) => w.(phase := if w.cancelled then Gone else Reading)
    case ReadChunk(_) => w.(phase := Committed, chunks := w.chunks + 1)
    case ReadEnds(_) => w.(phase := Gone)
    case Decide(_) => w.(phase := if w.dl in s.prefetch then Looping else Past)
    case Loop(_) => w.(phase := if !Yields(s, w.path) then Past else if w.path !in s.live then Gone
        else Sleeping(false))
    case GoOn(_, stop) => w.(phase := if stop then Gone else Top)
    case _ => w
  }

  function After(s: State, step: Step): State
    requires Enabled(s, step)
  {
    match step
    case StartHandle(h, p) => s.(marks := Marked(s.marks, p), workers := WakeAll(s.workers),
        handles := s.handles[h := p])
    case BeginRelease(h, r) => s.(handles := s.handles - {h}, closing := s.closing[r := s.handles[h]])
    case EndRelease(r) => s.(marks := Unmarked(s.marks, s.closing[r]), workers := WakeAll(s.workers),
        closing := s.closing - {r})
    case Register(p) => s.(live := s.live + {p})
    case Cancel(p) => s.(live := s.live - {p}, workers := WakeAll(s.workers))
    case Forget(p) => s.(live := s.live - {p})
    case CancelWorkers(dl) => s.(workers := CancelAll(s.workers, dl))
    case SetPrefetch(dl) => s.(prefetch := s.prefetch + {dl})
    case Spawn(g, dl, p) => s.(workers := s.workers[g := Worker(dl, p, false, Top, 0)])
    case _ => s.(workers := s.workers[step.g := WorkerAfter(s, s.workers[step.g], step)])
  }

  ghost predicate IsRun(s: State, steps: seq<Step>)
    decreases |steps|
  {
    steps == [] || (Enabled(s, steps[0]) && IsRun(After(s, steps[0]), steps[1..]))
  }

  ghost function EndOf(s: State, steps: seq<Step>): State
    requires IsRun(s, steps)
    decreases |steps|
  {
    if steps == [] then s else EndOf(After(s, steps[0]), steps[1..])
  }

  // ---------- The counts are right ----------

  function Holders(m: map<nat, string>, path: string): set<nat> {
    set h | h in m && m[h] == path
  }

  ghost predicate CountRight(s: State, p: string) {
    var n := |Holders(s.handles, p)| + |Holders(s.closing, p)|;
    if p in s.marks then s.marks[p] == n && n > 0 else n == 0
  }

  ghost predicate CountsRight(s: State) {
    forall p :: CountRight(s, p)
  }

  lemma HoldersAdd(m: map<nat, string>, h: nat, path: string, p: string)
    requires h !in m
    ensures |Holders(m[h := path], p)| == |Holders(m, p)| + if p == path then 1 else 0
  {
    if p == path {
      assert Holders(m[h := path], p) == Holders(m, p) + {h};
    } else {
      assert Holders(m[h := path], p) == Holders(m, p);
    }
  }

  lemma HoldersRemove(m: map<nat, string>, h: nat, p: string)
    requires h in m
    ensures |Holders(m - {h}, p)| == |Holders(m, p)| - if p == m[h] then 1 else 0
  {
    assert (m - {h})[h := m[h]] == m;
    HoldersAdd(m - {h}, h, m[h], p);
  }

  lemma CountsStep(s: State, step: Step)
    requires CountsRight(s) && Enabled(s, step)
    ensures CountsRight(After(s, step))
  {
    forall p ensures CountRight(After(s, step), p) {
      assert CountRight(s, p);
      match step
      case StartHandle(h, path) => HoldersAdd(s.handles, h, path, p);
      case BeginRelease(h, r) =>
        HoldersRemove(s.handles, h, p);
        HoldersAdd(s.closing, r, s.handles[h], p);
      case EndRelease(r) => HoldersRemove(s.closing, r, p);
      case _ =>
    }
  }

  /** Along every run foregroundPaths holds for each path the number of started handles and unfinished
      releases, and no entry else. */
  lemma {:induction false} CountsAlwaysRight(s: State, steps: seq<Step>)
    requires CountsRight(s) && IsRun(s, steps)
    ensures CountsRight(EndOf(s, steps))
    decreases |steps|
  {
    if steps != [] {
      CountsStep(s, steps[0]);
      CountsAlwaysRight(After(s, steps[0]), steps[1..]);
    }
  }

  lemma MarkedExactly(s: State, p: string)
    requires CountsRight(s)
    ensures p in s.marks
        <==> (exists h :: h in s.handles && s.handles[h] == p) || (exists r :: r in s.closing && s.closing[r] == p)
  {
    assert CountRight(s, p);
    if h :| h in s.handles && s.handles[h] == p {
      assert h in Holders(s.handles, p);
    } else {
      assert Holders(s.handles, p) == {};
    }
    if r :| r in s.closing && s.closing[r] == p {
      assert r in Holders(s.closing, p);
    } else {
      assert Holders(s.closing, p) == {};
    }
  }

  // ---------- Yielding ----------

  /** Throughout the run some handle is open, none on path `p`, and Download `dl` is a prefetch. */
  ghost predicate OthersRead(s: State, steps: seq<Step>, p: string, dl: nat)
    requires IsRun(s, steps)
    decreases |steps|
  {
    && s.handles != map[] && dl in s.prefetch
    && (forall h | h in s.handles :: s.handles[h] != p) && (forall r | r in s.closing :: s.closing[r] != p)
    && (steps != [] ==> OthersRead(After(s, steps[0]), steps[1..], p, dl))
  }

  /** The chunks that a yielding goroutine can still add. */
  function Allowance(phase: Phase): nat {
    if phase.Top? || phase.Reading? || phase.Past? then 1 else 0
  }

  lemma OthersYield(s: State, p: string)
    requires CountsRight(s) && s.handles != map[]
    requires (forall h | h in s.handles :: s.handles[h] != p) && (forall r | r in s.closing :: s.closing[r] != p)
    ensures Yields(s, p)
  {
    var h :| h in s.handles;
    MarkedExactly(s, s.handles[h]);
    MarkedExactly(s, p);
  }

  lemma YieldStep(s: State, step: Step, g: nat)
    requires Enabled(s, step) && g in s.workers && Yields(s, s.workers[g].path) && s.workers[g].dl in s.prefetch
    ensures g in After(s, step).workers
    ensures var w, v := s.workers[g], After(s, step).workers[g];
      v.path == w.path && v.dl == w.dl && v.chunks + Allowance(v.phase) <= w.chunks + Allowance(w.phase)
  {
  }

  /** While others read, a sequential prefetch goroutine adds at most one more chunk, whatever else
      happens: the one it was about to read. */
  lemma {:induction false} AtMostOneChunk(s: State, steps: seq<Step>, g: nat)
    requires CountsRight(s) && IsRun(s, steps) && g in s.workers
    requires OthersRead(s, steps, s.workers[g].path, s.workers[g].dl)
    ensures g in EndOf(s, steps).workers
    ensures EndOf(s, steps).workers[g].chunks
         <= s.workers[g].chunks + Allowance(s.workers[g].phase) <= s.workers[g].chunks + 1
    decreases |steps|
  {
    if steps != [] {
      OthersYield(s, s.workers[g].path);
      YieldStep(s, steps[0], g);
      CountsStep(s, steps[0]);
      AtMostOneChunk(After(s, steps[0]), steps[1..], g);
    }
  }

  /** A cancelled goroutine that is not already reading never adds a chunk again, in particular not when it
      leaves the yield loop. */
  lemma {:induction false} CancelledAddsNothing(s: State, steps: seq<Step>, g: nat)
    requires IsRun(s, steps) && g in s.workers && s.workers[g].cancelled && !s.workers[g].phase.Reading?
    ensures g in EndOf(s, steps).workers && EndOf(s, steps).workers[g].chunks == s.workers[g].chunks
    decreases |steps|
  {
    if steps != [] {
      CancelledAddsNothing(After(s, steps[0]), steps[1..], g);
    }
  }

  // ---------- Waking ----------

  /** Whoever sleeps unwoken still has to: somebody else reads, and its download is registered. */
  ghost predicate SleepersJustified(s: State) {
    forall g | g in s.workers && s.workers[g].phase == Sleeping(false) :: Yields(s, s.workers[g].path)
        && s.workers[g].path in s.live
  }

  /** Every change that ends a reason to sleep wakes the sleepers, with one exception: `finish` and the
      clean-up after an error remove a path from the map without a broadcast. */
  lemma SleepersStep(s: State, step: Step)
    requires SleepersJustified(s) && Enabled(s, step)
    ensures SleepersJustified(After(s, step)) <==>
      !(step.Forget?
        && exists g :: g in s.workers && s.workers[g].phase == Sleeping(false) && s.workers[g].path == step.path)
  {
  }

  // ---------- Who sleeps ----------

  /** Someone has a handle on the path, or has not finished its release. */
  ghost predicate IsRead(s: State, p: string) {
    || (exists h :: h in s.handles && s.handles[h] == p)
    || (exists r :: r in s.closing && s.closing[r] == p)
  }

  ghost predicate SomethingRead(s: State) {
    exists p :: IsRead(s, p)
  }

  lemma YieldsExactly(s: State, p: string)
    requires CountsRight(s)
    ensures Yields(s, p) <==> SomethingRead(s) && !IsRead(s, p)
  {
    MarkedExactly(s, p);
    if s.marks != map[] {
      var q :| q in s.marks;
      MarkedExactly(s, q);
      assert IsRead(s, q);
    }
    if q :| IsRead(s, q) {
      MarkedExactly(s, q);
    }
  }

  /** A goroutine is in the yield loop only for a prefetched Download, and sleeps unwoken only while another
      file is read, its own is not, and its download is registered. */
  ghost predicate LoopersRight(s: State) {
    forall g | g in s.workers ::
      var w := s.workers[g];
      && (w.phase.Looping? || w.phase.Sleeping? ==> w.dl in s.prefetch)
      && (w.phase == Sleeping(false) ==> SomethingRead(s) && !IsRead(s, w.path) && w.path in s.live)
  }

  /** No `finish` or error clean-up removes the path of a sleeper. */
  ghost predicate NoSilentForget(s: State, steps: seq<Step>)
    requires IsRun(s, steps)
    decreases |steps|
  {
    steps != [] ==>
      && (steps[0].Forget? ==>
            forall g | g in s.workers && s.workers[g].path == steps[0].path :: s.workers[g].phase != Sleeping(false))
      && NoSilentForget(After(s, steps[0]), steps[1..])
  }

  lemma LoopersStep(s: State, step: Step)
    requires CountsRight(s) && LoopersRight(s) && Enabled(s, step)
    requires step.Forget? ==>
      forall g | g in s.workers && s.workers[g].path == step.path :: s.workers[g].phase != Sleeping(false)
    ensures LoopersRight(After(s, step))
  {
    var v := After(s, step);
    CountsStep(s, step);
    forall g | g in v.workers
      ensures var w := v.workers[g];
        && (w.phase.Looping? || w.phase.Sleeping? ==> w.dl in v.prefetch)
        && (w.phase == Sleeping(false) ==> SomethingRead(v) && !IsRead(v, w.path) && w.path in v.live)
    {
      var w := v.workers[g];
      YieldsExactly(s, w.path);
      YieldsExactly(v, w.path);
    }
  }

  /** Along every run, as long as no path is removed silently, whoever sleeps unwoken has the reasons for it:
      in particular nobody sleeps while its own file is read or after its download was cancelled. */
  lemma {:induction false} SleepersHaveReasons(s: State, steps: seq<Step>)
    requires CountsRight(s) && LoopersRight(s) && IsRun(s, steps) && NoSilentForget(s, steps)
    ensures LoopersRight(EndOf(s, steps))
    decreases |steps|
  {
    if steps != [] {
      LoopersStep(s, steps[0]);
      CountsStep(s, steps[0]);
      SleepersHaveReasons(After(s, steps[0]), steps[1..]);
    }
  }

  /** The round of a goroutine that has work to do in the loop: it goes on exactly if its own file is read or none
      is; otherwise it leaves if its download was removed, and sleeps if not. */
  lemma LoopExactly(s: State, g: nat)
    requires CountsRight(s) && Enabled(s, Loop(g))
    ensures var w, v := s.workers[g], After(s, Loop(g)).workers[g];
      && v.chunks == w.chunks
      && (v.phase.Past? <==> IsRead(s, w.path) || !SomethingRead(s))
      && (v.phase.Gone? <==> !IsRead(s, w.path) && SomethingRead(s) && w.path !in s.live)
      && (v.phase == Sleeping(false) <==> !IsRead(s, w.path) && SomethingRead(s) && w.path in s.live)
  {
    YieldsExactly(s, s.workers[g].path);
  }

  /** A reader who opens the file of a sleeping goroutine wakes it, and it goes on. */
  lemma PromotionWakes(s: State, g: nat, h: nat)
    requires CountsRight(s) && g in s.workers && s.workers[g].phase.Sleeping? && h !in s.handles
    ensures var v := After(s, StartHandle(h, s.workers[g].path));
      Enabled(v, Loop(g)) && After(v, Loop(g)).workers[g].phase.Past?
  {
    var v := After(s, StartHandle(h, s.workers[g].path));
    CountsStep(s, StartHandle(h, s.workers[g].path));
    assert v.handles[h] == s.workers[g].path;
    LoopExactly(v, g);
  }

  /** The last reader of other files who goes wakes every sleeper, and they go on. */
  lemma LastReleaseWakes(s: State, g: nat, r: nat)
    requires CountsRight(s) && g in s.workers && s.workers[g].phase.Sleeping?
    requires s.handles == map[] && r in s.closing && s.closing == map[r := s.closing[r]]
    ensures var v := After(s, EndRelease(r)); Enabled(v, Loop(g)) && After(v, Loop(g)).workers[g].phase.Past?
  {
    var v := After(s, EndRelease(r));
    CountsStep(s, EndRelease(r));
    assert v.closing == map[];
    LoopExactly(v, g);
  }

  // ---------- The round of a goroutine ----------

  lemma {:induction false} GoneStays(s: State, steps: seq<Step>, g: nat)
    requires IsRun(s, steps) && g in s.workers && s.workers[g].phase.Gone?
    ensures g in EndOf(s, steps).workers && EndOf(s, steps).workers[g].phase.Gone?
    ensures EndOf(s, steps).workers[g].chunks == s.workers[g].chunks
    decreases |steps|
  {
    if steps != [] {
      GoneStays(After(s, steps[0]), steps[1..], g);
    }
  }

  /** After the end of its stream a goroutine adds no chunk on any run. */
  lemma EndedAddsNothing(s: State, steps: seq<Step>, g: nat)
    requires Enabled(s, ReadEnds(g)) && IsRun(After(s, ReadEnds(g)), steps)
    ensures var v := EndOf(After(s, ReadEnds(g)), steps); g in v.workers && v.workers[g].chunks == s.workers[g].chunks
  {
    GoneStays(After(s, ReadEnds(g)), steps, g);
  }

  /** One more step at the front of a run. */
  lemma RunCons(s: State, step: Step, rest: seq<Step>)
    requires Enabled(s, step) && IsRun(After(s, step), rest)
    ensures IsRun(s, [step] + rest) && EndOf(s, [step] + rest) == EndOf(After(s, step), rest)
  {
    assert ([step] + rest)[1..] == rest;
  }

  /** The decision to go on and the next pass. */
  lemma GoesOn(s: State, g: nat)
    requires g in s.workers && s.workers[g].phase.Past?
    ensures IsRun(s, [GoOn(g, false)] + []) && g in EndOf(s, [GoOn(g, false)] + []).workers
    ensures EndOf(s, [GoOn(g, false)] + []).workers[g] == s.workers[g].(phase := Top)
  {
    var v := After(s, GoOn(g, false));
    assert IsRun(v, []);
    RunCons(s, GoOn(g, false), []);
  }

  /** A prefetch can add a chunk and be ready for the next whenever its own file is read or none is; any other
      download always can. */
  lemma RoundAddsOne(s: State, g: nat) returns (steps: seq<Step>)
    requires CountsRight(s) && g in s.workers && s.workers[g].phase.Top? && !s.workers[g].cancelled
    requires s.workers[g].dl in s.prefetch ==> IsRead(s, s.workers[g].path) || !SomethingRead(s)
    ensures IsRun(s, steps) && g in EndOf(s, steps).workers
    ensures EndOf(s, steps).workers[g] == s.workers[g].(chunks := s.workers[g].chunks + 1)
    ensures steps == [Check(g)] + ([ReadChunk(g)] + ([Decide(g)]
                  + ((if s.workers[g].dl in s.prefetch then [Loop(g)] else []) + ([GoOn(g, false)] + []))))
  {
    var read := After(s, Check(g));
    var added := After(read, ReadChunk(g));
    var decided := After(added, Decide(g));
    var rest := [GoOn(g, false)] + [];
    YieldsExactly(s, s.workers[g].path);
    if s.workers[g].dl in s.prefetch {
      GoesOn(After(decided, Loop(g)), g);
      RunCons(decided, Loop(g), rest);
      rest := [Loop(g)] + rest;
    } else {
      GoesOn(decided, g);
      assert [] + rest == rest;
    }
    RunCons(added, Decide(g), rest);
    RunCons(read, ReadChunk(g), [Decide(g)] + rest);
    steps := [Check(g)] + ([ReadChunk(g)] + ([Decide(g)] + rest));
    RunCons(s, Check(g), [ReadChunk(g)] + ([Decide(g)] + rest));
  }

  // ---------- Cancelled downloads ----------

  ghost predicate NotRegistered(p: string, steps: seq<Step>) {
    forall step | step in steps :: step != Register(p)
  }

  /** The path is not registered, and its goroutine does not sleep unwoken. */
  ghost predicate IsRemoved(s: State, p: string, g: nat) {
    p !in s.live && g in s.workers && s.workers[g].path == p && s.workers[g].phase != Sleeping(false)
  }

  lemma RemovedStep(s: State, step: Step, p: string, g: nat)
    requires Enabled(s, step) && IsRemoved(s, p, g) && step != Register(p)
    ensures IsRemoved(After(s, step), p, g)
  {
  }

  lemma {:induction false} StaysRemoved(s: State, steps: seq<Step>, p: string, g: nat)
    requires IsRun(s, steps) && NotRegistered(p, steps) && IsRemoved(s, p, g)
    ensures IsRemoved(EndOf(s, steps), p, g)
    decreases |steps|
  {
    if steps != [] {
      assert steps[0] in steps && forall step | step in steps[1..] :: step in steps;
      RemovedStep(s, steps[0], p, g);
      StaysRemoved(After(s, steps[0]), steps[1..], p, g);
    }
  }

  /** `Cancel` removes the path, wakes whoever sleeps and then cancels the goroutines. On every run from there on
      until the path is registered again, a goroutine of the Download that is not just reading adds no chunk and
      never sleeps without being woken. */
  lemma CancelStops(s: State, steps: seq<Step>, p: string, dl: nat, g: nat)
    requires g in s.workers && s.workers[g].dl == dl && s.workers[g].path == p && !s.workers[g].phase.Reading?
    requires IsRun(After(After(s, Cancel(p)), CancelWorkers(dl)), steps) && NotRegistered(p, steps)
    ensures var v := EndOf(After(After(s, Cancel(p)), CancelWorkers(dl)), steps);
      && g in v.workers && v.workers[g].chunks == s.workers[g].chunks
      && p !in v.live && v.workers[g].phase != Sleeping(false)
  {
    var t := After(After(s, Cancel(p)), CancelWorkers(dl));
    CancelledAddsNothing(t, steps, g);
    StaysRemoved(t, steps, p, g);
  }

  /** A prefetch stays one, and a registered path stays so until it is cancelled or forgotten. */
  lemma PrefetchStays(s: State, steps: seq<Step>, dl: nat, p: string)
    requires IsRun(After(After(s, Register(p)), SetPrefetch(dl)), steps)
    requires forall step | step in steps :: step != Cancel(p) && step != Forget(p)
    ensures var v := EndOf(After(After(s, Register(p)), SetPrefetch(dl)), steps); dl in v.prefetch && p in v.live
  {
    StaysPrefetch(After(After(s, Register(p)), SetPrefetch(dl)), steps, dl, p);
  }

  lemma {:induction false} StaysPrefetch(s: State, steps: seq<Step>, dl: nat, p: string)
    requires IsRun(s, steps) && dl in s.prefetch && p in s.live
    requires forall step | step in steps :: step != Cancel(p) && step != Forget(p)
    ensures dl in EndOf(s, steps).prefetch && p in EndOf(s, steps).live
    decreases |steps|
  {
    if steps != [] {
      assert steps[0] in steps && forall step | step in steps[1..] :: step in steps;
      StaysPrefetch(After(s, steps[0]), steps[1..], dl, p);
    }
  }
}
