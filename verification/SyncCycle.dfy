/** Whole engine cycles under local-wins: upload the dirty files, replay pending operations, pull. */
module SyncCycle {
  import opened Basics
  import opened Paths
  import opened Sync
  import opened SyncPull

  /** Pending operations; `PutOp` is skipped because the upload pass has handled it. */
  datatype Op = DeleteOp(path: Path) | PutOp(path: Path)

  datatype State = State(cache: Cache, remote: Remote, ops: seq<Op>)

  const OPS_PER_CYCLE := 10

  // ---------- Upload ----------

  /** The remote has changed since the last sync of a file that was synced before. */
  predicate Moved(node: Option<Node>, e: Entry) {
    e.remoteMtime > 0 && node.Some? && node.value.mtime > e.remoteMtime
  }

  function UploadedEntry(e: Entry): Entry {
    e.(state := Clean, remoteMtime := e.localMtime, syncError := false)
  }

  /** `uploadFile` with the entry read by the dirty listing. */
  function UploadFile(c: Cache, remote: Remote, strategy: Strategy, p: Path, e: Entry): (Cache, Remote)
    requires p != []
  {
    if Moved(Lookup(remote.nodes, p), e) then (Resolve(c, strategy, remote, p, e, remote.nodes[p]), remote)
    else if p !in c.rows then (c, remote)
    else if p !in c.files then (c.(rows := c.rows[p := c.rows[p].(state := Dirty)]), remote)
    else if p in remote.broken then (c.(rows := c.rows[p := e.(state := Dirty, syncError := true)]), remote)
    else (c.(rows := c.rows[p := UploadedEntry(e)]),
          remote.(nodes := remote.nodes[p := Node(false, e.localMtime, c.files[p])]))
  }

  predicate IsDirtyFile(c: Cache, p: Path) {
    p in c.rows && c.rows[p].state.Dirty? && !c.rows[p].isDir
  }

  /** The upload loop over a listing of rows of `c`. */
  function UploadEach(c: Cache, remote: Remote, strategy: Strategy, dirty: seq<Path>): (Cache, Remote)
    requires forall p | p in dirty :: p in c.rows && p != []
  {
    if dirty == [] then (c, remote)
    else
      var rest, p := dirty[..|dirty| - 1], dirty[|dirty| - 1];
      assert forall q | q in rest :: q in dirty;
      var before := UploadEach(c, remote, strategy, rest);
      UploadFile(before.0, before.1, strategy, p, c.rows[p])
  }

  /** A path in the cache and in the remote tree. */
  datatype Place = Place(cell: Cell, node: Option<Node>)

  ghost function PlaceOf(c: Cache, remote: Remote, p: Path): Place {
    Place(At(c, p), Lookup(remote.nodes, p))
  }

  predicate DirtyCell(cell: Cell) {
    cell.row.Some? && cell.row.value.state.Dirty? && !cell.row.value.isDir
  }

  /** The upload of one path on its own, under local-wins. */
  function Upload(broken: bool, place: Place): Place {
    var cell := place.cell;
    if !DirtyCell(cell) then place
    else
      var e := cell.row.value;
      if Moved(place.node, e) then place.(cell := cell.(row := Some(LocalWinsEntry(e))))
      else if cell.file.None? then place
      else if broken then place.(cell := cell.(row := Some(e.(state := Dirty, syncError := true))))
      else Place(cell.(row := Some(UploadedEntry(e))), Some(Node(false, e.localMtime, cell.file.value)))
  }

  lemma UploadFileEffect(c: Cache, remote: Remote, p: Path, q: Path)
    requires IsDirtyFile(c, p) && p != []
    ensures var (d, r) := UploadFile(c, remote, LocalWins, p, c.rows[p]);
      && r.broken == remote.broken
      && PlaceOf(d, r, q) == if q == p then Upload(p in remote.broken, PlaceOf(c, remote, p)) else PlaceOf(c, remote, q)
  {
  }

  ghost predicate DirtyListing(c: Cache, dirty: seq<Path>) {
    && (forall p | p in dirty :: p in c.rows && p != [])
    && (forall p | p in dirty :: IsDirtyFile(c, p))
    && (forall i, j | 0 <= i < j < |dirty| :: dirty[i] != dirty[j])
  }

  lemma {:induction false} UploadEffect(c: Cache, remote: Remote, dirty: seq<Path>, q: Path)
    requires DirtyListing(c, dirty)
    ensures var (d, r) := UploadEach(c, remote, LocalWins, dirty);
      && r.broken == remote.broken
      && PlaceOf(d, r, q) == if q in dirty then Upload(q in remote.broken, PlaceOf(c, remote, q))
          else PlaceOf(c, remote, q)
  {
    if dirty != [] {
      var rest, p := dirty[..|dirty| - 1], dirty[|dirty| - 1];
      assert forall x | x in rest :: x in dirty;
      assert p !in rest && forall x | x in dirty :: x in rest || x == p;
      var before := UploadEach(c, remote, LocalWins, rest);
      UploadEffect(c, remote, rest, q);
      UploadEffect(c, remote, rest, p);
      assert At(before.0, p) == At(c, p);
      assert IsDirtyFile(c, p) && p in before.0.rows && before.0.rows[p] == c.rows[p] by {
        assert At(before.0, p).row == At(c, p).row;
      }
      UploadFileEffect(before.0, before.1, p, q);
    }
  }

  // ---------- Pending operations ----------

  /** The operation removes `p`, itself or with a directory above it. */
  predicate Deletes(op: Op, p: Path) {
    op.DeleteOp? && (op.path == p || Under(op.path, p))
  }

  ghost predicate SomeDeletes(ops: seq<Op>, p: Path) {
    exists op :: op in ops && Deletes(op, p)
  }

  ghost function RunOp(remote: Remote, op: Op): Remote {
    remote.(nodes := map p | p in remote.nodes && !Deletes(op, p) :: remote.nodes[p])
  }

  ghost function RunOps(remote: Remote, ops: seq<Op>): Remote
    decreases |ops|
  {
    if ops == [] then remote else RunOps(RunOp(remote, ops[0]), ops[1..])
  }

  /** The operations that a cycle takes from the queue, oldest first, and those it leaves. */
  function Batch(ops: seq<Op>): seq<Op> {
    if |ops| < OPS_PER_CYCLE then ops else ops[..OPS_PER_CYCLE]
  }

  function Later(ops: seq<Op>): seq<Op> {
    if |ops| < OPS_PER_CYCLE then [] else ops[OPS_PER_CYCLE..]
  }

  /** Which operations of the batch the adapter fails, by their place in it. */
  type Outcome = (nat, Op) -> bool

  predicate Fails(fails: Outcome, i: nat, op: Op) {
    op.DeleteOp? && fails(i, op)
  }

  /** The operations of a batch that succeed, and those that stay queued. */
  function Done(fails: Outcome, ops: seq<Op>): seq<Op> {
    if ops == [] then []
    else
      var i := |ops| - 1;
      Done(fails, ops[..i]) + if Fails(fails, i, ops[i]) then [] else [ops[i]]
  }

  function Kept(fails: Outcome, ops: seq<Op>): (kept: seq<Op>)
    ensures |kept| <= |ops|
  {
    if ops == [] then []
    else
      var i := |ops| - 1;
      Kept(fails, ops[..i]) + if Fails(fails, i, ops[i]) then [ops[i]] else []
  }

  ghost predicate NoneFails(fails: Outcome) {
    forall i, op :: !fails(i, op)
  }

  /** The queue that the batch leaves: what fails keeps its place at the front. */
  function QueueNext(fails: Outcome, ops: seq<Op>): seq<Op> {
    Kept(fails, Batch(ops)) + Later(ops)
  }

  /** The batch, done as far as it succeeds. */
  ghost function ServeOps(s: State, fails: Outcome): State {
    s.(remote := RunOps(s.remote, Done(fails, Batch(s.ops))), ops := QueueNext(fails, s.ops))
  }

  lemma {:induction false} AllDone(fails: Outcome, ops: seq<Op>)
    requires NoneFails(fails)
    ensures Done(fails, ops) == ops && Kept(fails, ops) == []
  {
    if ops != [] {
      AllDone(fails, ops[..|ops| - 1]);
    }
  }

  lemma {:induction false} RunOpsSnoc(remote: Remote, ops: seq<Op>, op: Op)
    ensures RunOps(remote, ops + [op]) == RunOp(RunOps(remote, ops), op)
    decreases |ops|
  {
    assert (ops + [op])[0] == if ops == [] then op else ops[0];
    if ops == [] {
      assert (ops + [op])[1..] == [];
    } else {
      assert (ops + [op])[1..] == ops[1..] + [op];
      RunOpsSnoc(RunOp(remote, ops[0]), ops[1..], op);
    }
  }

  /** The queue and the remote tree after the first `i` operations of the batch, of which `k` have failed. */
  ghost predicate Served(fails: Outcome, s: State, i: nat, k: nat, ops: seq<Op>, remote: Remote) {
    && i <= |Batch(s.ops)|
    && k == |Kept(fails, Batch(s.ops)[..i])|
    && ops == Kept(fails, Batch(s.ops)[..i]) + s.ops[i..]
    && remote == RunOps(s.remote, Done(fails, Batch(s.ops)[..i]))
  }

  /** The first operation of the rest, behind those that have failed. */
  lemma Behind(kept: seq<Op>, queue: seq<Op>, i: nat)
    requires i < |queue|
    ensures var ops, k := kept + queue[i..], |kept|;
      && k < |ops| && ops[k] == queue[i]
      && kept + [queue[i]] + queue[i + 1..] == ops
      && kept + queue[i + 1..] == ops[..k] + ops[k + 1..]
  {
    var ops, more := kept + queue[i..], kept + [queue[i]] + queue[i + 1..];
    assert |more| == |ops| && forall j | 0 <= j < |ops| :: more[j] == ops[j];
  }

  /** One more operation of the batch: if it succeeds, it leaves its place behind the failed ones. */
  lemma ServeOne(fails: Outcome, s: State, i: nat, k: nat, ops: seq<Op>, remote: Remote)
    requires Served(fails, s, i, k, ops, remote) && i < |Batch(s.ops)|
    ensures k < |ops| && ops[k] == Batch(s.ops)[i]
    ensures
      if Fails(fails, i, ops[k]) then Served(fails, s, i + 1, k + 1, ops, remote)
      else Served(fails, s, i + 1, k, ops[..k] + ops[k + 1..], RunOp(remote, ops[k]))
  {
    var batch := Batch(s.ops);
    var kept, done, more := Kept(fails, batch[..i]), Done(fails, batch[..i]), batch[..i + 1];
    assert more[..i] == batch[..i] && more[i] == batch[i] == s.ops[i];
    Behind(kept, s.ops, i);
    if Fails(fails, i, batch[i]) {
      assert Kept(fails, more) == kept + [batch[i]];
      assert Done(fails, more) == done + [] == done;
    } else {
      assert Kept(fails, more) == kept + [] == kept;
      RunOpsSnoc(s.remote, done, batch[i]);
      assert Done(fails, more) == done + [batch[i]];
    }
  }

  lemma ServedAll(fails: Outcome, s: State, k: nat, ops: seq<Op>, remote: Remote)
    requires Served(fails, s, |Batch(s.ops)|, k, ops, remote)
    ensures ServeOps(s, fails) == s.(remote := remote, ops := ops)
  {
    assert Batch(s.ops)[..|Batch(s.ops)|] == Batch(s.ops);
  }

  /** The batch, all of it successful. */
  ghost function ProcessOps(s: State): State {
    s.(remote := RunOps(s.remote, Batch(s.ops)), ops := Later(s.ops))
  }

  lemma AllServed(s: State, fails: Outcome)
    requires NoneFails(fails)
    ensures ServeOps(s, fails) == ProcessOps(s)
  {
    AllDone(fails, Batch(s.ops));
  }

  lemma {:induction false} RunOpsEffect(remote: Remote, ops: seq<Op>, p: Path)
    ensures RunOps(remote, ops).broken == remote.broken
    ensures Lookup(RunOps(remote, ops).nodes, p) == if SomeDeletes(ops, p) then None else Lookup(remote.nodes, p)
    decreases |ops|
  {
    if ops != [] {
      RunOpsEffect(RunOp(remote, ops[0]), ops[1..], p);
      if op :| op in ops && Deletes(op, p) {
        assert op == ops[0] || op in ops[1..];
      }
    }
  }

  /** What deletes a directory deletes all that it holds. */
  lemma DeletesBelow(ops: seq<Op>, p: Path)
    requires p != []
    ensures SomeDeletes(ops, Parent(p)) ==> SomeDeletes(ops, p)
  {
  }

  lemma RunOpsTree(remote: Remote, ops: seq<Op>)
    requires IsTree(remote)
    ensures IsTree(RunOps(remote, ops))
  {
    var r := RunOps(remote, ops);
    forall p | p in r.nodes ensures p != [] && IsDirectory(r, Parent(p)) {
      RunOpsEffect(remote, ops, p);
      assert p in remote.nodes && p != [];
      DeletesBelow(ops, p);
      RunOpsEffect(remote, ops, Parent(p));
    }
  }

  // ---------- The cycle ----------

  /** One cycle as the engine runs it, with the dirty rows and the remote directories listed in some order. */
  ghost function EngineCycle(s: State, strategy: Strategy, dirty: seq<Path>, fails: Outcome, listings: Listings): State
    requires forall p | p in dirty :: p in s.cache.rows && p != []
    requires WellListed(ServeOps(Uploaded(s, strategy, dirty), fails).remote, listings)
  {
    var t := ServeOps(Uploaded(s, strategy, dirty), fails);
    t.(cache := Pull(t.cache, strategy, t.remote, listings))
  }

  ghost function Uploaded(s: State, strategy: Strategy, dirty: seq<Path>): State
    requires forall p | p in dirty :: p in s.cache.rows && p != []
  {
    var (d, r) := UploadEach(s.cache, s.remote, strategy, dirty);
    State(d, r, s.ops)
  }

  /** A listing of all dirty files. */
  ghost predicate AllDirty(c: Cache, dirty: seq<Path>) {
    DirtyListing(c, dirty) && forall p | IsDirtyFile(c, p) :: p in dirty
  }

  ghost function AllKeys(c: Cache): set<Path> {
    c.rows.Keys + c.files.Keys + c.conflicts.Keys
  }

  /** The cache whose cells are the given ones. */
  ghost function FromCells(cells: map<Path, Cell>): Cache {
    Cache(map p | p in cells && cells[p].row.Some? :: cells[p].row.value,
          map p | p in cells && cells[p].file.Some? :: cells[p].file.value,
          map p | p in cells && cells[p].conflict.Some? :: cells[p].conflict.value)
  }

  ghost function UploadedPlaces(s: State): map<Path, Place> {
    map p | p in AllKeys(s.cache) + s.remote.nodes.Keys :: Upload(p in s.remote.broken, PlaceOf(s.cache, s.remote, p))
  }

  ghost function UploadAll(s: State): State {
    var places := UploadedPlaces(s);
    State(FromCells(map p | p in places :: places[p].cell),
          s.remote.(nodes := map p | p in places && places[p].node.Some? :: places[p].node.value),
          s.ops)
  }

  lemma UploadAllPlace(s: State, p: Path)
    ensures var t := UploadAll(s);
      && PlaceOf(t.cache, t.remote, p) == Upload(p in s.remote.broken, PlaceOf(s.cache, s.remote, p))
      && t.remote.broken == s.remote.broken && t.ops == s.ops
  {
  }

  ghost function PulledCells(s: State): map<Path, Cell> {
    map p | p in AllKeys(s.cache) + s.remote.nodes.Keys :: PulledCell(LocalWins, s.remote, p, At(s.cache, p))
  }

  ghost function PullAll(s: State): State {
    s.(cache := FromCells(PulledCells(s)))
  }

  lemma PullAllCell(s: State, p: Path)
    ensures At(PullAll(s).cache, p) == PulledCell(LocalWins, s.remote, p, At(s.cache, p))
  {
  }

  /** One cycle without any order: every path on its own. */
  ghost function Cycle(s: State): State {
    PullAll(ProcessOps(UploadAll(s)))
  }

  lemma SameMaps<V>(a: map<Path, V>, b: map<Path, V>)
    requires forall q :: Lookup(a, q) == Lookup(b, q)
    ensures a == b
  {
    forall q ensures q in a <==> q in b
      ensures q in a ==> a[q] == b[q]
    {
      assert Lookup(a, q) == Lookup(b, q);
    }
  }

  lemma UploadIsPointwise(s: State, dirty: seq<Path>)
    requires AllDirty(s.cache, dirty)
    ensures Uploaded(s, LocalWins, dirty) == UploadAll(s)
  {
    var d, t := Uploaded(s, LocalWins, dirty), UploadAll(s);
    forall q ensures At(d.cache, q) == At(t.cache, q) && Lookup(d.remote.nodes, q) == Lookup(t.remote.nodes, q) {
      UploadEffect(s.cache, s.remote, dirty, q);
      UploadAllPlace(s, q);
      assert DirtyCell(At(s.cache, q)) <==> IsDirtyFile(s.cache, q);
      assert PlaceOf(d.cache, d.remote, q) == PlaceOf(t.cache, t.remote, q);
    }
    UploadEffect(s.cache, s.remote, dirty, []);
    SameCells(d.cache, t.cache);
    SameMaps(d.remote.nodes, t.remote.nodes);
  }

  lemma PullIsPullAll(s: State, listings: Listings)
    requires WellListed(s.remote, listings)
    ensures PullAll(s).cache == Pull(s.cache, LocalWins, s.remote, listings)
  {
    var d := Pull(s.cache, LocalWins, s.remote, listings);
    forall q ensures At(d, q) == At(PullAll(s).cache, q) {
      PullAllCell(s, q);
      PullIsPointwise(s.cache, LocalWins, s.remote, listings, q);
    }
    SameCells(d, PullAll(s).cache);
  }

  /** The engine's cycle, whatever the order of its listings, is the pointwise cycle. */
  lemma CycleIsPointwise(s: State, dirty: seq<Path>, fails: Outcome, listings: Listings)
    requires AllDirty(s.cache, dirty) && NoneFails(fails)
    requires WellListed(ServeOps(Uploaded(s, LocalWins, dirty), fails).remote, listings)
    ensures EngineCycle(s, LocalWins, dirty, fails, listings) == Cycle(s)
  {
    UploadIsPointwise(s, dirty);
    AllServed(UploadAll(s), fails);
    PullIsPullAll(ProcessOps(UploadAll(s)), listings);
  }
}
