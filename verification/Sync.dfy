/** The sync engine on values: the cache tables, the remote tree, the four conflict strategies and the
    recursive pull. */
module Sync {
  import opened Basics
  import opened Paths
  import opened Ranges

  // ---------- Tables ----------

  /** A row of the files table. `ranges` is the cached_ranges column, None when it is the empty string. */
  datatype Entry = Entry(
    isDir: bool,
    size: nat,
    remoteMtime: int,
    localMtime: int,
    state: FileState,
    ranges: Option<Intervals>,
    syncError: bool,
    pinned: bool,
    lastAccess: int)

  /** A row of the conflicts table; the path is unique. */
  datatype Record = Record(localMtime: int, remoteMtime: int)

  /** The metadata database and the cache files. */
  datatype Cache = Cache(rows: map<Path, Entry>, files: map<Path, seq<Byte>>, conflicts: map<Path, Record>)

  datatype Node = Node(isDir: bool, mtime: int, content: seq<Byte>)

  /** The remote tree, and the files whose download fails. */
  datatype Remote = Remote(nodes: map<Path, Node>, broken: set<Path>)

  datatype Strategy = Both | LocalWins | RemoteWins | Manual

  function Get(remote: Remote, p: Path): Option<seq<Byte>> {
    if p in remote.nodes && !remote.nodes[p].isDir && p !in remote.broken then Some(remote.nodes[p].content) else None
  }

  function Decimal(n: nat): string {
    if n < 10 then ["0123456789"[n]] else Decimal(n / 10) + ["0123456789"[n % 10]]
  }

  function DecimalInt(n: int): string {
    if n < 0 then "-" + Decimal(-n) else Decimal(n)
  }

  /** "<path>.conflict.<mtime>", next to the file itself. */
  function Sidecar(p: Path, mtime: int): Path
    requires p != []
  {
    p[..|p| - 1] + [p[|p| - 1] + ".conflict." + DecimalInt(mtime)]
  }

  lemma SidecarSibling(dir: Path, p: Path, mtime: int)
    requires ChildOf(dir, p)
    ensures ChildOf(dir, Sidecar(p, mtime)) && Sidecar(p, mtime) != p
  {
    assert |Sidecar(p, mtime)[|p| - 1]| > |p[|p| - 1]|;
  }

  // ---------- The resolver ----------

  function LocalWinsEntry(e: Entry): Entry {
    e.(state := Dirty, syncError := false)
  }

  function RemoteWinsEntry(e: Entry, node: Node): Entry {
    e.(state := Clean, remoteMtime := node.mtime, localMtime := node.mtime, size := |node.content|, syncError := false)
  }

  function ConflictEntry(e: Entry, node: Node): Entry {
    e.(state := Conflict, remoteMtime := node.mtime)
  }

  function SidecarEntry(node: Node): Entry {
    Entry(false, |node.content|, node.mtime, node.mtime, Clean, None, false, false, 0)
  }

  /** `Resolve` on the entry `e` of path `p`. Creating a cache file fails where a directory is. */
  function Resolve(c: Cache, strategy: Strategy, remote: Remote, p: Path, e: Entry, node: Node): Cache
    requires p != []
  {
    match strategy
    case LocalWins => c.(rows := c.rows[p := LocalWinsEntry(e)])
    case RemoteWins =>
      if e.isDir then c
      else (match Get(remote, p)
        case None => c.(files := c.files - {p})
        case Some(content) => c.(files := c.files[p := content], rows := c.rows[p := RemoteWinsEntry(e, node)]))
    case Manual =>
      c.(conflicts := c.conflicts[p := Record(e.localMtime, node.mtime)], rows := c.rows[p := ConflictEntry(e, node)])
    case Both =>
      var q := Sidecar(p, node.mtime);
      var recorded := c.(conflicts := c.conflicts[p := Record(e.localMtime, node.mtime)]);
      match Get(remote, p)
      case None => recorded.(files := c.files - {q}, rows := c.rows[p := ConflictEntry(e, node)])
      case Some(content) =>
        recorded.(files := c.files[q := content], rows := c.rows[q := SidecarEntry(node)][p := ConflictEntry(e, node)])
  }

  // ---------- The pull ----------

  function NewEntry(node: Node): Entry {
    Entry(node.isDir, |node.content|, node.mtime, node.mtime, Evicted, None, false, false, 0)
  }

  /** The remote is newer than a clean row. The ranges column is left as it is. */
  function ReEvicted(e: Entry, node: Node): Entry {
    e.(state := Evicted, size := |node.content|, remoteMtime := node.mtime)
  }

  /** One listed remote file. */
  function PullEntry(c: Cache, strategy: Strategy, remote: Remote, p: Path): Cache
    requires p in remote.nodes && p != []
  {
    var node := remote.nodes[p];
    if p !in c.rows then
      c.(rows := c.rows[p := NewEntry(node)])
    else
      var e := c.rows[p];
      if node.mtime <= e.remoteMtime then c
      else if e.state.Clean? || e.state.Evicted? then
        c.(rows := c.rows[p := ReEvicted(e, node)], files := c.files - {p})
      else if e.state.Dirty? || e.state.Syncing? then
        Resolve(c, strategy, remote, p, e.(remoteMtime := node.mtime), node)
      else c
  }

  function PullEntries(c: Cache, strategy: Strategy, remote: Remote, listing: seq<Path>): Cache
    requires forall p | p in listing :: p in remote.nodes && p != []
  {
    if listing == [] then c
    else
      assert forall p | p in listing[..|listing| - 1] :: p in listing;
      PullEntry(PullEntries(c, strategy, remote, listing[..|listing| - 1]), strategy, remote, listing[|listing| - 1])
  }

  /** A child of `dir` that is no longer remote and holds nothing of its own. */
  predicate Stale(c: Cache, dir: Path, listed: set<Path>, p: Path) {
    p in c.rows && ChildOf(dir, p) && p !in listed && (c.rows[p].state.Clean? || c.rows[p].state.Evicted?)
  }

  ghost function DropStale(c: Cache, dir: Path, listed: set<Path>): Cache {
    c.(rows := map p | p in c.rows && !Stale(c, dir, listed, p) :: c.rows[p],
       files := map p | p in c.files && !Stale(c, dir, listed, p) :: c.files[p])
  }

  /** What lies below `dir` in the remote tree. */
  ghost function Below(remote: Remote, dir: Path): set<Path> {
    set p | p in remote.nodes && Under(dir, p)
  }

  /** The answers of `List`: every directory lists exactly its children, in some order. */
  type Listings = map<Path, seq<Path>>

  ghost predicate IsDirectory(remote: Remote, dir: Path) {
    dir == [] || (dir in remote.nodes && remote.nodes[dir].isDir)
  }

  /** Every node is the child of a directory. */
  ghost predicate IsTree(remote: Remote) {
    forall p | p in remote.nodes :: p != [] && IsDirectory(remote, Parent(p))
  }

  ghost predicate ListedWell(remote: Remote, listings: Listings, dir: Path) {
    && dir in listings
    && (forall p :: p in listings[dir] <==> p in remote.nodes && ChildOf(dir, p))
    && (forall i, j | 0 <= i < j < |listings[dir]| :: listings[dir][i] != listings[dir][j])
  }

  ghost predicate WellListed(remote: Remote, listings: Listings) {
    IsTree(remote) && forall dir | IsDirectory(remote, dir) :: ListedWell(remote, listings, dir)
  }

  lemma BelowChild(remote: Remote, dir: Path, child: Path)
    requires child in remote.nodes && ChildOf(dir, child)
    ensures Below(remote, child) < Below(remote, dir)
  {
    assert Under(dir, child) && !Under(child, child);
    forall p | Under(child, p) ensures Under(dir, p) {
      UnderTransitive(dir, child, p);
    }
    assert child in Below(remote, dir) && child !in Below(remote, child);
  }

  /** The rows of one directory: first what is listed, then what is gone. */
  ghost function PullLevel(c: Cache, strategy: Strategy, remote: Remote, listing: seq<Path>, dir: Path): Cache
    requires forall p | p in listing :: p in remote.nodes && p != []
  {
    DropStale(PullEntries(c, strategy, remote, listing), dir, (set p | p in listing))
  }

  ghost function PullDir(c: Cache, strategy: Strategy, remote: Remote, listings: Listings, dir: Path): Cache
    requires WellListed(remote, listings) && IsDirectory(remote, dir)
    decreases Below(remote, dir), 1, 0
  {
    PullSubdirs(PullLevel(c, strategy, remote, listings[dir], dir), strategy, remote, listings, dir, listings[dir])
  }

  ghost function PullSubdirs(c: Cache, strategy: Strategy, remote: Remote, listings: Listings, dir: Path,
      children: seq<Path>): Cache
    requires WellListed(remote, listings)
    requires forall p | p in children :: p in remote.nodes && ChildOf(dir, p)
    decreases Below(remote, dir), 0, |children|
  {
    if children == [] then c
    else
      var rest, last := children[..|children| - 1], children[|children| - 1];
      var before := PullSubdirs(c, strategy, remote, listings, dir, rest);
      BelowChild(remote, dir, last);
      if remote.nodes[last].isDir then PullDir(before, strategy, remote, listings, last) else before
  }

  /** The walk into the children, one more child at the end. */
  lemma SubdirsSnoc(c: Cache, strategy: Strategy, remote: Remote, listings: Listings, dir: Path, rest: seq<Path>,
      last: Path)
    requires WellListed(remote, listings)
    requires forall p | p in rest + [last] :: p in remote.nodes && ChildOf(dir, p)
    ensures forall p | p in rest :: p in rest + [last]
    ensures last in remote.nodes && ChildOf(dir, last)
    ensures var before := PullSubdirs(c, strategy, remote, listings, dir, rest);
      PullSubdirs(c, strategy, remote, listings, dir, rest + [last]) ==
        if remote.nodes[last].isDir then PullDir(before, strategy, remote, listings, last) else before
  {
  }

  // ---------- One path at a time ----------

  /** All that the cache holds for one path. */
  datatype Cell = Cell(row: Option<Entry>, file: Option<seq<Byte>>, conflict: Option<Record>)

  function Lookup<K, V>(m: map<K, V>, k: K): Option<V> {
    if k in m then Some(m[k]) else None
  }

  function At(c: Cache, p: Path): Cell {
    Cell(Lookup(c.rows, p), Lookup(c.files, p), Lookup(c.conflicts, p))
  }

  lemma SameCells(a: Cache, b: Cache)
    requires forall p :: At(a, p) == At(b, p)
    ensures a == b
  {
    forall p ensures (p in a.rows <==> p in b.rows) && (p in a.files <==> p in b.files)
        && (p in a.conflicts <==> p in b.conflicts)
      ensures p in a.rows ==> a.rows[p] == b.rows[p]
      ensures p in a.files ==> a.files[p] == b.files[p]
      ensures p in a.conflicts ==> a.conflicts[p] == b.conflicts[p]
    {
      assert At(a, p) == At(b, p);
    }
    assert a.rows == b.rows && a.files == b.files && a.conflicts == b.conflicts;
  }

  /** The resolver seen from the conflicting path alone. */
  function ResolveCell(strategy: Strategy, got: Option<seq<Byte>>, e: Entry, node: Node, cell: Cell): Cell {
    match strategy
    case LocalWins => cell.(row := Some(LocalWinsEntry(e)))
    case RemoteWins =>
      if e.isDir then cell
      else if got.None? then cell.(file := None)
      else cell.(row := Some(RemoteWinsEntry(e, node)), file := got)
    case Manual => cell.(row := Some(ConflictEntry(e, node)), conflict := Some(Record(e.localMtime, node.mtime)))
    case Both => cell.(row := Some(ConflictEntry(e, node)), conflict := Some(Record(e.localMtime, node.mtime)))
  }

  function PullCell(strategy: Strategy, got: Option<seq<Byte>>, node: Node, cell: Cell): Cell {
    if cell.row.None? then cell.(row := Some(NewEntry(node)))
    else
      var e := cell.row.value;
      if node.mtime <= e.remoteMtime then cell
      else if e.state.Clean? || e.state.Evicted? then cell.(row := Some(ReEvicted(e, node)), file := None)
      else if e.state.Dirty? || e.state.Syncing? then
          ResolveCell(strategy, got, e.(remoteMtime := node.mtime), node, cell)
      else cell
  }

  /** The whole pull without any tree walk: what it makes of each path on its own. */
  ghost function PulledCell(strategy: Strategy, remote: Remote, p: Path, cell: Cell): Cell {
    if p in remote.nodes then PullCell(strategy, Get(remote, p), remote.nodes[p], cell)
    else if p != [] && IsDirectory(remote, Parent(p)) && cell.row.Some?
        && (cell.row.value.state.Clean? || cell.row.value.state.Evicted?)
    then cell.(row := None, file := None)
    else cell
  }

  // ---------- One listed file ----------

  predicate IsEdit(e: Entry) {
    e.state.Dirty? || e.state.Syncing?
  }

  /** The remote node is newer than what the edit knows: a conflict. */
  predicate Meets(node: Node, cell: Cell) {
    cell.row.Some? && IsEdit(cell.row.value) && node.mtime > cell.row.value.remoteMtime
  }

  /** Where a conflict at `p` saves the remote copy. */
  function SidecarOf(remote: Remote, p: Path): Path
    requires p in remote.nodes && p != []
  {
    Sidecar(p, remote.nodes[p].mtime)
  }

  /** The path that the remote copy is saved to; a failed download leaves no file there. */
  function SavedCell(got: Option<seq<Byte>>, node: Node, cell: Cell): Cell {
    if got.Some? then cell.(row := Some(SidecarEntry(node)), file := got) else cell.(file := None)
  }

  /** The resolver changes the conflicting path, and under `Both` the sidecar. */
  lemma ResolveEffect(c: Cache, strategy: Strategy, remote: Remote, p: Path, e: Entry, q: Path)
    requires p in remote.nodes && p != []
    ensures At(Resolve(c, strategy, remote, p, e, remote.nodes[p]), q) ==
      if q == p then ResolveCell(strategy, Get(remote, p), e, remote.nodes[p], At(c, p))
      else if strategy.Both? && q == SidecarOf(remote, p) then SavedCell(Get(remote, p), remote.nodes[p], At(c, q))
      else At(c, q)
  {
    SidecarSibling(Parent(p), p, remote.nodes[p].mtime);
  }

  /** One listed file changes its own path, and under `Both` the sidecar of a conflict. */
  lemma EntryEffect(c: Cache, strategy: Strategy, remote: Remote, p: Path, q: Path)
    requires p in remote.nodes && p != []
    ensures At(PullEntry(c, strategy, remote, p), q) ==
      if q == p then PullCell(strategy, Get(remote, p), remote.nodes[p], At(c, p))
      else if strategy.Both? && Meets(remote.nodes[p], At(c, p)) && q == SidecarOf(remote, p) then
        SavedCell(Get(remote, p), remote.nodes[p], At(c, q))
      else At(c, q)
  {
    if Meets(remote.nodes[p], At(c, p)) {
      ResolveEffect(c, strategy, remote, p, c.rows[p].(remoteMtime := remote.nodes[p].mtime), q);
    }
  }

  ghost predicate ListingOf(remote: Remote, dir: Path, listing: seq<Path>) {
    && (forall p | p in listing :: p in remote.nodes && p != [])
    && (forall p | p in listing :: ChildOf(dir, p))
    && (forall i, j | 0 <= i < j < |listing| :: listing[i] != listing[j])
  }

  lemma ListingSnoc(remote: Remote, dir: Path, listing: seq<Path>) returns (rest: seq<Path>, last: Path)
    requires ListingOf(remote, dir, listing) && listing != []
    ensures listing == rest + [last] && last !in rest && ListingOf(remote, dir, rest)
    ensures last in remote.nodes && last != [] && ChildOf(dir, last)
    ensures forall p :: p in listing <==> p in rest || p == last
    ensures forall c, strategy ::
        PullEntries(c, strategy, remote, listing)
            == PullEntry(PullEntries(c, strategy, remote, rest), strategy, remote, last)
  {
    rest, last := listing[..|listing| - 1], listing[|listing| - 1];
    assert last in listing;
    assert forall p | p in rest :: p in listing;
  }

  // ---------- One directory level ----------

  ghost predicate SameChildren(c: Cache, d: Cache, dir: Path) {
    forall q | ChildOf(dir, q) :: At(c, q) == At(d, q)
  }

  /** The loop over a listing reads and writes the children of the directory only. */
  lemma {:induction false} EntriesLocal(c: Cache, d: Cache, strategy: Strategy, remote: Remote, dir: Path,
      listing: seq<Path>, q: Path)
    requires ListingOf(remote, dir, listing) && SameChildren(c, d, dir)
    ensures ChildOf(dir, q)
        ==> At(PullEntries(c, strategy, remote, listing), q) == At(PullEntries(d, strategy, remote, listing), q)
    ensures !ChildOf(dir, q) ==> At(PullEntries(c, strategy, remote, listing), q) == At(c, q)
    decreases |listing|
  {
    if listing != [] {
      var rest, last := ListingSnoc(remote, dir, listing);
      EntriesLocal(c, d, strategy, remote, dir, rest, q);
      EntriesLocal(c, d, strategy, remote, dir, rest, last);
      EntryEffect(PullEntries(c, strategy, remote, rest), strategy, remote, last, q);
      EntryEffect(PullEntries(d, strategy, remote, rest), strategy, remote, last, q);
      SidecarSibling(dir, last, remote.nodes[last].mtime);
    }
  }

  lemma DropEffect(c: Cache, dir: Path, listed: set<Path>, q: Path)
    ensures At(DropStale(c, dir, listed), q) ==
      if Stale(c, dir, listed, q) then At(c, q).(row := None, file := None) else At(c, q)
  {
  }

  lemma LevelLocal(c: Cache, d: Cache, strategy: Strategy, remote: Remote, dir: Path, listing: seq<Path>, q: Path)
    requires ListingOf(remote, dir, listing) && SameChildren(c, d, dir)
    ensures ChildOf(dir, q) ==>
      At(PullLevel(c, strategy, remote, listing, dir), q) == At(PullLevel(d, strategy, remote, listing, dir), q)
    ensures !ChildOf(dir, q) ==> At(PullLevel(c, strategy, remote, listing, dir), q) == At(c, q)
  {
    EntriesLocal(c, d, strategy, remote, dir, listing, q);
    DropEffect(PullEntries(c, strategy, remote, listing), dir, (set p | p in listing), q);
    DropEffect(PullEntries(d, strategy, remote, listing), dir, (set p | p in listing), q);
  }

  lemma ListedIsListing(remote: Remote, listings: Listings, dir: Path)
    requires WellListed(remote, listings) && IsDirectory(remote, dir)
    ensures dir in listings && ListingOf(remote, dir, listings[dir])
    ensures forall p :: p in listings[dir] <==> p in remote.nodes && ChildOf(dir, p)
  {
    assert ListedWell(remote, listings, dir);
  }

  /** What the level of its own directory makes of a path; other paths stay as they are. */
  ghost function LevelCell(c: Cache, strategy: Strategy, remote: Remote, listings: Listings, q: Path): Cell
    requires WellListed(remote, listings)
  {
    if q != [] && IsDirectory(remote, Parent(q)) then
      ListedIsListing(remote, listings, Parent(q));
      At(PullLevel(c, strategy, remote, listings[Parent(q)], Parent(q)), q)
    else At(c, q)
  }

  // ---------- A level is pointwise, sidecars apart ----------

  /** A conflict at `x` would save the remote copy to `q`. */
  ghost predicate Targets(c: Cache, remote: Remote, x: Path, q: Path) {
    x in remote.nodes && x != [] && Meets(remote.nodes[x], At(c, x)) && SidecarOf(remote, x) == q
  }

  /** Nothing is here, or the pull drops what is here if it is not listed. */
  predicate Droppable(cell: Cell) {
    if cell.row.Some? then cell.row.value.state.Clean? || cell.row.value.state.Evicted? else cell.file.None?
  }

  /** No conflict saves a copy to `q`, or `q` is not listed and a pull would leave nothing there anyway. */
  ghost predicate Free(c: Cache, strategy: Strategy, remote: Remote, q: Path) {
    strategy.Both? ==> forall x | Targets(c, remote, x, q) :: q !in remote.nodes && Droppable(At(c, q))
  }

  /** Before its turn a row is as it was, or a copy has been saved to it. */
  lemma {:induction false} BeforeTurn(c: Cache, strategy: Strategy, remote: Remote, dir: Path,
      listing: seq<Path>, x: Path)
    requires ListingOf(remote, dir, listing) && x !in listing
    ensures var row := At(PullEntries(c, strategy, remote, listing), x).row;
      row == At(c, x).row || (row.Some? && row.value.state.Clean?)
    decreases |listing|
  {
    if listing != [] {
      var rest, last := ListingSnoc(remote, dir, listing);
      BeforeTurn(c, strategy, remote, dir, rest, x);
      EntryEffect(PullEntries(c, strategy, remote, rest), strategy, remote, last, x);
    }
  }

  ghost predicate EntriesDone(c: Cache, d: Cache, strategy: Strategy, remote: Remote, listing: seq<Path>, q: Path) {
    if q in listing && q in remote.nodes then At(d, q) == PullCell(strategy, Get(remote, q), remote.nodes[q], At(c, q))
    else
      || At(d, q) == At(c, q)
      || (q !in remote.nodes && Droppable(At(c, q)) && Droppable(At(d, q)) && At(d, q).conflict == At(c, q).conflict)
  }

  lemma {:induction false} EntriesEffect(c: Cache, strategy: Strategy, remote: Remote, dir: Path,
      listing: seq<Path>, q: Path)
    requires ListingOf(remote, dir, listing) && Free(c, strategy, remote, q)
    ensures EntriesDone(c, PullEntries(c, strategy, remote, listing), strategy, remote, listing, q)
    decreases |listing|
  {
    if listing != [] {
      var rest, last := ListingSnoc(remote, dir, listing);
      var d := PullEntries(c, strategy, remote, rest);
      EntriesEffect(c, strategy, remote, dir, rest, q);
      EntryEffect(d, strategy, remote, last, q);
      if q != last && strategy.Both? && Meets(remote.nodes[last], At(d, last)) && q == SidecarOf(remote, last) {
        BeforeTurn(c, strategy, remote, dir, rest, last);
        assert Targets(c, remote, last, q);
      }
    }
  }

  /** A directory level leaves in each of its free children what the pointwise pull says. */
  lemma LevelEffect(c: Cache, strategy: Strategy, remote: Remote, listings: Listings, q: Path)
    requires WellListed(remote, listings) && Free(c, strategy, remote, q)
    ensures LevelCell(c, strategy, remote, listings, q) == PulledCell(strategy, remote, q, At(c, q))
  {
    if q != [] && IsDirectory(remote, Parent(q)) {
      assert ChildOf(Parent(q), q);
      ChildEffect(c, strategy, remote, listings, Parent(q), q);
    } else {
      assert q !in remote.nodes;
    }
  }

  lemma ChildEffect(c: Cache, strategy: Strategy, remote: Remote, listings: Listings, dir: Path, q: Path)
    requires WellListed(remote, listings) && Free(c, strategy, remote, q)
    requires IsDirectory(remote, dir) && ChildOf(dir, q) && dir == Parent(q)
    ensures LevelCell(c, strategy, remote, listings, q) == PulledCell(strategy, remote, q, At(c, q))
  {
    ListedIsListing(remote, listings, dir);
    EntriesEffect(c, strategy, remote, dir, listings[dir], q);
    DropEffect(PullEntries(c, strategy, remote, listings[dir]), dir, (set p | p in listings[dir]), q);
  }

  /** The subdirectory of `dir` on the way to `q`. */
  function ChildToward(dir: Path, q: Path): Path
    requires Under(dir, q)
  {
    q[..|dir| + 1]
  }

  /** Below a child that was not walked there is no remote directory. */
  lemma NotWalkedUnchanged(c: Cache, strategy: Strategy, remote: Remote, listings: Listings, dir: Path, q: Path)
    requires WellListed(remote, listings) && Under(dir, q) && !ChildOf(dir, q)
    requires !IsDirectory(remote, ChildToward(dir, q))
    ensures LevelCell(c, strategy, remote, listings, q) == At(c, q)
  {
    if |q| == |dir| + 2 {
      assert Parent(q) == ChildToward(dir, q);
    } else {
      assert Under(dir, Parent(q)) && ChildToward(dir, Parent(q)) == ChildToward(dir, q);
      NotRemoteBelow(remote, dir, Parent(q));
    }
  }

  lemma {:induction false} NotRemoteBelow(remote: Remote, dir: Path, q: Path)
    requires IsTree(remote) && Under(dir, q) && !ChildOf(dir, q)
    requires !IsDirectory(remote, ChildToward(dir, q))
    ensures q !in remote.nodes
    decreases |q|
  {
    assert q in remote.nodes ==> IsDirectory(remote, Parent(q));
    if |q| == |dir| + 2 {
      assert Parent(q) == ChildToward(dir, q);
    } else {
      assert Under(dir, Parent(q)) && ChildToward(dir, Parent(q)) == ChildToward(dir, q);
      NotRemoteBelow(remote, dir, Parent(q));
    }
  }
}
