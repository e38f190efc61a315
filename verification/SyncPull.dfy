/** The recursive pull computes the pointwise pull, and what follows for every database, remote tree
    and strategy. */
module SyncPull {
  import opened Basics
  import opened Paths
  import opened Sync

  // ---------- The walk ----------

  ghost predicate UnderSome(remote: Remote, children: seq<Path>, q: Path) {
    exists ch :: ch in children && ch in remote.nodes && remote.nodes[ch].isDir && Under(ch, q)
  }

  /** The walk below `dir`: every path is what the level of its own directory makes of it. */
  ghost predicate Walked(c: Cache, d: Cache, strategy: Strategy, remote: Remote, listings: Listings, dir: Path)
    requires WellListed(remote, listings)
  {
    forall q :: At(d, q) == if Under(dir, q) then LevelCell(c, strategy, remote, listings, q) else At(c, q)
  }

  ghost predicate ChildrenWalked(c: Cache, d: Cache, strategy: Strategy, remote: Remote, listings: Listings,
      children: seq<Path>)
    requires WellListed(remote, listings)
  {
    forall q :: At(d, q) == if UnderSome(remote, children, q) then LevelCell(c, strategy, remote, listings, q)
        else At(c, q)
  }

  lemma SiblingsUnder(top: Path, q: Path, x: Path)
    requires Under(top, q) && ChildOf(Parent(q), x)
    ensures Under(top, x)
  {
    var dir := Parent(q);
    assert x[..|top|] == dir[..|top|] == q[..|top|];
  }

  /** A level looks at the children of its directory only. */
  lemma LevelCellLocal(b: Cache, c: Cache, strategy: Strategy, remote: Remote, listings: Listings, top: Path, q: Path)
    requires WellListed(remote, listings) && Under(top, q)
    requires forall x | Under(top, x) :: At(b, x) == At(c, x)
    ensures LevelCell(b, strategy, remote, listings, q) == LevelCell(c, strategy, remote, listings, q)
  {
    var dir := Parent(q);
    if IsDirectory(remote, dir) {
      ListedIsListing(remote, listings, dir);
      assert SameChildren(b, c, dir) by {
        forall x | ChildOf(dir, x) ensures At(b, x) == At(c, x) {
          SiblingsUnder(top, q, x);
        }
      }
      LevelLocal(b, c, strategy, remote, dir, listings[dir], q);
    }
  }

  /** One more child: its subtree was not touched by the walks of its siblings. */
  lemma ChildrenSnoc(c: Cache, b: Cache, d: Cache, strategy: Strategy, remote: Remote, listings: Listings, dir: Path,
      rest: seq<Path>, last: Path)
    requires WellListed(remote, listings)
    requires forall p | p in rest + [last] :: p in remote.nodes && ChildOf(dir, p)
    requires last !in rest && remote.nodes[last].isDir
    requires ChildrenWalked(c, b, strategy, remote, listings, rest) && Walked(b, d, strategy, remote, listings, last)
    ensures ChildrenWalked(c, d, strategy, remote, listings, rest + [last])
  {
    assert last in rest + [last];
    forall x | Under(last, x) ensures !UnderSome(remote, rest, x) && At(b, x) == At(c, x) {
      forall ch | ch in rest ensures !Under(ch, x) {
        assert ch in rest + [last];
        assert |ch| == |last| && last == x[..|last|];
      }
    }
    forall q
      ensures At(d, q) == if UnderSome(remote, rest + [last], q) then LevelCell(c, strategy, remote, listings, q)
          else At(c, q)
    {
      if Under(last, q) {
        LevelCellLocal(b, c, strategy, remote, listings, last, q);
      } else {
        assert forall ch | ch in rest + [last] && Under(ch, q) :: ch in rest;
        assert UnderSome(remote, rest, q) ==> UnderSome(remote, rest + [last], q);
        assert At(d, q) == At(b, q);
      }
    }
  }

  /** A child that is no directory has nothing below it. */
  lemma ChildrenSkip(c: Cache, d: Cache, strategy: Strategy, remote: Remote, listings: Listings, rest: seq<Path>,
      last: Path)
    requires WellListed(remote, listings) && ChildrenWalked(c, d, strategy, remote, listings, rest)
    requires last in remote.nodes && !remote.nodes[last].isDir
    ensures ChildrenWalked(c, d, strategy, remote, listings, rest + [last])
  {
    forall q ensures UnderSome(remote, rest + [last], q) <==> UnderSome(remote, rest, q) {
      assert forall ch | ch in rest + [last] && ch in remote.nodes && remote.nodes[ch].isDir :: ch in rest;
      assert forall ch | ch in rest :: ch in rest + [last];
    }
  }

  lemma OneMoreChild(c: Cache, strategy: Strategy, remote: Remote, listings: Listings, dir: Path, rest: seq<Path>,
      last: Path)
    requires WellListed(remote, listings)
    requires forall p | p in rest + [last] :: p in remote.nodes && ChildOf(dir, p)
    requires last !in rest && forall p | p in rest :: p in rest + [last]
    requires ChildrenWalked(c, PullSubdirs(c, strategy, remote, listings, dir, rest), strategy, remote, listings, rest)
    ensures ChildrenWalked(c, PullSubdirs(c, strategy, remote, listings, dir, rest + [last]), strategy, remote,
        listings, rest + [last])
    decreases Below(remote, dir), 0, 0
  {
    var before := PullSubdirs(c, strategy, remote, listings, dir, rest);
    SubdirsSnoc(c, strategy, remote, listings, dir, rest, last);
    BelowChild(remote, dir, last);
    if remote.nodes[last].isDir {
      PullDirWalks(before, strategy, remote, listings, last);
      ChildrenSnoc(c, before, PullDir(before, strategy, remote, listings, last), strategy, remote, listings, dir,
          rest, last);
    } else {
      ChildrenSkip(c, before, strategy, remote, listings, rest, last);
    }
  }

  lemma {:induction false} SubdirsWalk(c: Cache, strategy: Strategy, remote: Remote, listings: Listings, dir: Path,
      children: seq<Path>)
    requires WellListed(remote, listings)
    requires forall p | p in children :: p in remote.nodes && ChildOf(dir, p)
    requires forall i, j | 0 <= i < j < |children| :: children[i] != children[j]
    ensures ChildrenWalked(c, PullSubdirs(c, strategy, remote, listings, dir, children), strategy, remote, listings,
        children)
    decreases Below(remote, dir), 0, |children|
  {
    if children != [] {
      var rest, last := children[..|children| - 1], children[|children| - 1];
      assert children == rest + [last] && last !in rest;
      assert forall p | p in rest :: p in rest + [last];
      SubdirsWalk(c, strategy, remote, listings, dir, rest);
      OneMoreChild(c, strategy, remote, listings, dir, rest, last);
    }
  }

  /** The recursive, order-dependent walk over the listings is the level of every directory on its own:
      no directory sees what the pull does to another one. */
  lemma {:induction false} PullDirWalks(c: Cache, strategy: Strategy, remote: Remote, listings: Listings, dir: Path)
    requires WellListed(remote, listings) && IsDirectory(remote, dir)
    ensures Walked(c, PullDir(c, strategy, remote, listings, dir), strategy, remote, listings, dir)
    decreases Below(remote, dir), 1, 0
  {
    ListedIsListing(remote, listings, dir);
    var listing := listings[dir];
    var level := PullLevel(c, strategy, remote, listing, dir);
    forall q ensures At(level, q) == if ChildOf(dir, q) then LevelCell(c, strategy, remote, listings, q) else At(c, q) {
      LevelLocal(c, c, strategy, remote, dir, listing, q);
      assert ChildOf(dir, q) ==> Parent(q) == dir;
    }
    SubdirsWalk(level, strategy, remote, listings, dir, listing);
    var d := PullSubdirs(level, strategy, remote, listings, dir, listing);
    forall q ensures At(d, q) == if Under(dir, q) then LevelCell(c, strategy, remote, listings, q) else At(c, q) {
      WalkJoin(c, level, d, strategy, remote, listings, dir, q);
    }
  }

  lemma WalkJoin(c: Cache, level: Cache, d: Cache, strategy: Strategy, remote: Remote, listings: Listings,
      dir: Path, q: Path)
    requires WellListed(remote, listings) && IsDirectory(remote, dir)
    requires forall x :: At(level, x) == if ChildOf(dir, x) then LevelCell(c, strategy, remote, listings, x)
        else At(c, x)
    requires ChildrenWalked(level, d, strategy, remote, listings, listings[dir])
    ensures At(d, q) == if Under(dir, q) then LevelCell(c, strategy, remote, listings, q) else At(c, q)
  {
    var listing := listings[dir];
    assert ListedWell(remote, listings, dir);
    if UnderSome(remote, listing, q) {
      var ch :| ch in listing && ch in remote.nodes && remote.nodes[ch].isDir && Under(ch, q);
      UnderTransitive(dir, ch, q);
      LevelCellLocal(level, c, strategy, remote, listings, ch, q);
    } else if Under(dir, q) && !ChildOf(dir, q) {
      var ch := ChildToward(dir, q);
      assert ChildOf(dir, ch) && Under(ch, q);
      assert IsDirectory(remote, ch) ==> ch in listing;
      NotWalkedUnchanged(c, strategy, remote, listings, dir, q);
    }
  }

  /** A pull of the whole tree. */
  ghost function Pull(c: Cache, strategy: Strategy, remote: Remote, listings: Listings): Cache
    requires WellListed(remote, listings)
  {
    PullDir(c, strategy, remote, listings, [])
  }

  lemma PullByLevels(c: Cache, strategy: Strategy, remote: Remote, listings: Listings, q: Path)
    requires WellListed(remote, listings)
    ensures At(Pull(c, strategy, remote, listings), q) == LevelCell(c, strategy, remote, listings, q)
  {
    PullDirWalks(c, strategy, remote, listings, []);
    assert Under([], q) <==> q != [];
  }

  /** A pull makes of every path what its own row, file, record and remote node say, unless a conflict
      saves a copy over it. */
  lemma PullIsPointwise(c: Cache, strategy: Strategy, remote: Remote, listings: Listings, q: Path)
    requires WellListed(remote, listings) && Free(c, strategy, remote, q)
    ensures At(Pull(c, strategy, remote, listings), q) == PulledCell(strategy, remote, q, At(c, q))
  {
    PullByLevels(c, strategy, remote, listings, q);
    LevelEffect(c, strategy, remote, listings, q);
  }

  /** The order in which `List` returns its entries matters only where a copy is saved over something. */
  lemma PullOrderIrrelevant(c: Cache, strategy: Strategy, remote: Remote, one: Listings, two: Listings)
    requires WellListed(remote, one) && WellListed(remote, two) && forall q :: Free(c, strategy, remote, q)
    ensures Pull(c, strategy, remote, one) == Pull(c, strategy, remote, two)
  {
    forall q ensures At(Pull(c, strategy, remote, one), q) == At(Pull(c, strategy, remote, two), q) {
      PullIsPointwise(c, strategy, remote, one, q);
      PullIsPointwise(c, strategy, remote, two, q);
    }
    SameCells(Pull(c, strategy, remote, one), Pull(c, strategy, remote, two));
  }

  // ---------- Idempotence ----------

  lemma PulledCellIdempotent(strategy: Strategy, remote: Remote, p: Path, cell: Cell)
    ensures var once := PulledCell(strategy, remote, p, cell); PulledCell(strategy, remote, p, once) == once
  {
  }

  // ---------- Local edits ----------

  predicate HoldsLocalData(e: Entry) {
    e.state.Dirty? || e.state.Syncing? || e.state.Conflict? || e.state.Downloading?
  }

  lemma CellKeepsEdits(strategy: Strategy, remote: Remote, p: Path, cell: Cell)
    requires !strategy.RemoteWins? && cell.row.Some? && HoldsLocalData(cell.row.value)
    ensures var after, e := PulledCell(strategy, remote, p, cell), cell.row.value;
      && after.row.Some? && after.file == cell.file
      && (after.row == cell.row
          || ((e.state.Dirty? || e.state.Syncing?)
              && (after.row.value.state.Dirty? || after.row.value.state.Conflict?)))
  {
  }

  lemma CellRemoteWins(remote: Remote, p: Path, cell: Cell)
    requires p in remote.nodes && cell.file.Some? && cell.row.Some?
        && (cell.row.value.state.Dirty? || cell.row.value.state.Syncing?)
    ensures var after, e, newer := PulledCell(RemoteWins, remote, p, cell), cell.row.value,
        remote.nodes[p].mtime > cell.row.value.remoteMtime;
      && (after.file == cell.file <==> !newer || e.isDir || Get(remote, p) == cell.file)
      && (after.row == cell.row <==> !newer || e.isDir || Get(remote, p).None?)
  {
  }

  /** Under remote-wins the local bytes of an edit survive a pull exactly when the remote is not newer or
      its download brings the same bytes. A failed download removes the local file as well, while
      the row goes on saying that the file is dirty. */
  lemma RemoteWinsLoses(c: Cache, remote: Remote, listings: Listings, p: Path)
    requires WellListed(remote, listings) && p != [] && p in c.rows && p in c.files && p in remote.nodes
    requires c.rows[p].state.Dirty? || c.rows[p].state.Syncing?
    ensures var after := At(Pull(c, RemoteWins, remote, listings), p);
      var kept := remote.nodes[p].mtime <= c.rows[p].remoteMtime || c.rows[p].isDir;
      && (after.file == Some(c.files[p]) <==> kept || Get(remote, p) == Some(c.files[p]))
      && (after.row == Some(c.rows[p]) <==> kept || Get(remote, p).None?)
  {
    PullIsPointwise(c, RemoteWins, remote, listings, p);
    CellRemoteWins(remote, p, At(c, p));
  }

  lemma CellMtimeMonotone(strategy: Strategy, remote: Remote, p: Path, cell: Cell)
    requires cell.row.Some?
    ensures var after := PulledCell(strategy, remote, p, cell);
      after.row.Some? ==> cell.row.value.remoteMtime <= after.row.value.remoteMtime
  {
  }

  lemma CellDeletedExactly(strategy: Strategy, remote: Remote, p: Path, cell: Cell)
    requires p != [] && cell.row.Some?
    ensures PulledCell(strategy, remote, p, cell).row.None? <==>
      && p !in remote.nodes && IsDirectory(remote, Parent(p))
      && (cell.row.value.state.Clean? || cell.row.value.state.Evicted?)
  {
  }

  // ---------- What the documentation promises but the code does not keep ----------

  /** If a listed file has the name of another one's sidecar, the sidecar row overwrites the row pulled
      just before, and the next pull changes it again. */
  lemma CollidingSidecar()
    ensures var a, b := ["a"], ["a.conflict.5"];
      var remote := Remote(map[a := Node(false, 5, [1]), b := Node(false, 9, [2])], {});
      var row := Entry(false, 1, 1, 3, Dirty, None, false, false, 0);
      var once := PullEntries(Cache(map[a := row], map[a := [3]], map[]), Both, remote, [b, a]);
      Lookup(PullEntries(once, Both, remote, [b, a]).rows, b) != Lookup(once.rows, b)
  {
    var a, b := ["a"], ["a.conflict.5"];
    var remote := Remote(map[a := Node(false, 5, [1]), b := Node(false, 9, [2])], {});
    var row := Entry(false, 1, 1, 3, Dirty, None, false, false, 0);
    var c0 := Cache(map[a := row], map[a := [3]], map[]);
    assert DecimalInt(5) == "5";
    assert Sidecar(a, 5) == b by { assert Sidecar(a, 5)[0] == "a" + ".conflict." + "5" == "a.conflict.5"; }
    assert a != b by { assert |a[0]| != |b[0]|; }
    var c1 := PullEntry(c0, Both, remote, b);
    assert [b, a][..1] == [b];
    assert PullEntries(c0, Both, remote, [b]) == c1;
    var once := PullEntries(c0, Both, remote, [b, a]);
    assert once == PullEntry(c1, Both, remote, a);
    assert c1.rows[a] == row;
    assert once.rows[b] == SidecarEntry(remote.nodes[a]);
    var c2 := PullEntry(once, Both, remote, b);
    assert PullEntries(once, Both, remote, [b]) == c2;
    assert PullEntries(once, Both, remote, [b, a]) == PullEntry(c2, Both, remote, a);
    assert c2.rows[a].state.Conflict?;
  }
}
