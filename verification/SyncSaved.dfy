/** What strategy both saves next to a conflict, how long the copy lives, and what the saving does to local
    data, remote times and deletions: exactly, for every database, remote tree and order of the listings. */
module SyncSaved {
  import opened Basics
  import opened Paths
  import opened Sync
  import opened SyncPull
  import opened SyncIdempotence

  // ---------- One listing ----------

  /** When its turn comes, the j-th listed file is a conflict, and its copy goes to `q`. */
  ghost predicate SavesOver(c: Cache, remote: Remote, listing: seq<Path>, j: nat, q: Path)
    requires Listed(remote, listing)
  {
    && j < |listing| && listing[j] in listing
    && (forall p | p in listing[..j] :: p in listing)
    && MeetsNext(c, remote, listing[..j], listing[j]) && SidecarOf(remote, listing[j]) == q
  }

  ghost predicate SomeSaves(c: Cache, remote: Remote, listing: seq<Path>, q: Path)
    requires Listed(remote, listing)
  {
    exists j: nat :: SavesOver(c, remote, listing, j, q)
  }

  lemma SavesPrefix(c: Cache, remote: Remote, rest: seq<Path>, last: Path, j: nat, q: Path)
    requires Listed(remote, rest) && Listed(remote, rest + [last]) && j < |rest|
    ensures SavesOver(c, remote, rest, j, q) <==> SavesOver(c, remote, rest + [last], j, q)
  {
    assert (rest + [last])[..j] == rest[..j] && (rest + [last])[j] == rest[j];
    assert rest[j] in rest && rest[j] in rest + [last];
  }

  /** The last listed file saves its copy to `q`. */
  lemma LastSaves(c: Cache, remote: Remote, dir: Path, rest: seq<Path>, last: Path, q: Path)
    requires ListingOf(remote, dir, rest) && Listed(remote, rest + [last]) && last !in rest
    requires last in remote.nodes && last != []
    ensures SavesOver(c, remote, rest + [last], |rest|, q) <==>
      Meets(remote.nodes[last], At(PullEntries(c, Both, remote, rest), last)) && SidecarOf(remote, last) == q
  {
    MeetsAtTurn(c, remote, dir, rest, last);
    assert (rest + [last])[..|rest|] == rest && (rest + [last])[|rest|] == last;
  }

  /** What the turn of a path makes of it, if no copy comes its way. */
  ghost function OwnTurn(remote: Remote, listing: seq<Path>, q: Path, cell: Cell): Cell {
    if q in listing && q in remote.nodes then PullCell(Both, Get(remote, q), remote.nodes[q], cell) else cell
  }

  lemma {:induction false} NoneSaves(c: Cache, remote: Remote, dir: Path, listing: seq<Path>, q: Path)
    requires ListingOf(remote, dir, listing) && !SomeSaves(c, remote, listing, q)
    ensures At(PullEntries(c, Both, remote, listing), q) == OwnTurn(remote, listing, q, At(c, q))
    decreases |listing|
  {
    if listing != [] {
      var rest, last := ListingSnoc(remote, dir, listing);
      forall j: nat ensures !SavesOver(c, remote, rest, j, q) {
        if j < |rest| {
          SavesPrefix(c, remote, rest, last, j, q);
        }
      }
      NoneSaves(c, remote, dir, rest, q);
      LastSaves(c, remote, dir, rest, last, q);
      EntryEffect(PullEntries(c, Both, remote, rest), Both, remote, last, q);
    }
  }

  /** Nothing else saves to the same path. */
  lemma SavesOnce(c: Cache, remote: Remote, dir: Path, listing: seq<Path>, j: nat, k: nat, q: Path)
    requires ListingOf(remote, dir, listing) && SavesOver(c, remote, listing, j, q) && k < |listing| && k != j
    ensures listing[k] in listing && SidecarOf(remote, listing[k]) != q
  {
    assert listing[k] in listing;
    if SidecarOf(remote, listing[k]) == q {
      SidecarInjective(listing[j], remote.nodes[listing[j]].mtime, listing[k], remote.nodes[listing[k]].mtime);
    }
  }

  /** Row and file of `q` once the copy of `x` is saved there: the turn of `q`, if it comes later, evicts the
      copy when the node of `q` is newer. */
  ghost function SavedThere(remote: Remote, listing: seq<Path>, j: nat, q: Path, cell: Cell): Cell
    requires Listed(remote, listing) && j < |listing| && listing[j] in listing
  {
    var saved := SavedCell(Get(remote, listing[j]), remote.nodes[listing[j]], cell);
    if q in listing && q in remote.nodes && q !in listing[..j] then
        PullCell(Both, Get(remote, q), remote.nodes[q], saved)
    else saved
  }

  /** A copy comes to `q` once, at the turn of the conflict; before it and after it `q` has only its own turn. */
  lemma {:induction false} OneSaves(c: Cache, remote: Remote, dir: Path, listing: seq<Path>, j: nat, q: Path)
    requires ListingOf(remote, dir, listing) && SavesOver(c, remote, listing, j, q)
    ensures At(PullEntries(c, Both, remote, listing), q)
         == SavedThere(remote, listing, j, q, OwnTurn(remote, listing[..j], q, At(c, q)))
    decreases |listing|
  {
    var rest, last := ListingSnoc(remote, dir, listing);
    var d := PullEntries(c, Both, remote, rest);
    EntryEffect(d, Both, remote, last, q);
    SidecarSibling(dir, listing[j], remote.nodes[listing[j]].mtime);
    if j == |rest| {
      assert listing[..j] == rest && listing[j] == last;
      forall k: nat ensures !SavesOver(c, remote, rest, k, q) {
        if k < |rest| {
          SavesOnce(c, remote, dir, listing, j, k, q);
          assert listing[k] == rest[k];
        }
      }
      NoneSaves(c, remote, dir, rest, q);
      LastSaves(c, remote, dir, rest, last, q);
    } else {
      assert listing[..j] == rest[..j] && listing[j] == rest[j];
      SavesPrefix(c, remote, rest, last, j, q);
      OneSaves(c, remote, dir, rest, j, q);
      SavesOnce(c, remote, dir, listing, j, |rest|, q);
      assert listing[|rest|] == last;
    }
  }

  // ---------- The whole pull ----------

  ghost function ListingAt(remote: Remote, listings: Listings, dir: Path): (listing: seq<Path>)
    requires WellListed(remote, listings) && IsDirectory(remote, dir)
    ensures ListingOf(remote, dir, listing) && forall p :: p in listing <==> p in remote.nodes && ChildOf(dir, p)
  {
    ListedIsListing(remote, listings, dir);
    listings[dir]
  }

  /** The pull saves the copy of the j-th file of the directory of `q` to `q`. */
  ghost predicate SavesTo(c: Cache, remote: Remote, listings: Listings, j: nat, q: Path)
    requires WellListed(remote, listings)
  {
    q != [] && IsDirectory(remote, Parent(q)) && SavesOver(c, remote, ListingAt(remote, listings, Parent(q)), j, q)
  }

  /** The pull saves a copy to `q`, or removes the file there because the download of the copy fails. */
  ghost predicate Overwritten(c: Cache, strategy: Strategy, remote: Remote, listings: Listings, q: Path)
    requires WellListed(remote, listings)
  {
    strategy.Both? && exists j: nat :: SavesTo(c, remote, listings, j, q)
  }

  /** Whose copy it is. */
  ghost function Source(c: Cache, remote: Remote, listings: Listings, j: nat, q: Path): (x: Path)
    requires WellListed(remote, listings) && SavesTo(c, remote, listings, j, q)
    ensures x in remote.nodes && x != [] && SidecarOf(remote, x) == q
  {
    ListingAt(remote, listings, Parent(q))[j]
  }

  /** The turn of `q` comes before that of the source. */
  ghost predicate Earlier(remote: Remote, listings: Listings, j: nat, q: Path)
    requires WellListed(remote, listings) && q != [] && IsDirectory(remote, Parent(q))
  {
    var listing := ListingAt(remote, listings, Parent(q)); j < |listing| && q in listing[..j]
  }

  lemma LevelOf(c: Cache, strategy: Strategy, remote: Remote, listings: Listings, q: Path)
    requires WellListed(remote, listings) && q != [] && IsDirectory(remote, Parent(q))
    ensures var listing, after := ListingAt(remote, listings, Parent(q)), At(Pull(c, strategy, remote, listings), q);
      var cell := At(PullEntries(c, strategy, remote, listing), q);
      after == if q !in remote.nodes && cell.row.Some? && (cell.row.value.state.Clean? || cell.row.value.state.Evicted?)
               then cell.(row := None, file := None) else cell
  {
    var dir, listing := Parent(q), ListingAt(remote, listings, Parent(q));
    PullByLevels(c, strategy, remote, listings, q);
    DropEffect(PullEntries(c, strategy, remote, listing), dir, (set p | p in listing), q);
    assert ChildOf(dir, q);
  }

  /** A path to which nothing is saved is what its own row, file, record and node say. */
  lemma PullOwn(c: Cache, strategy: Strategy, remote: Remote, listings: Listings, q: Path)
    requires WellListed(remote, listings) && !Overwritten(c, strategy, remote, listings, q)
    ensures At(Pull(c, strategy, remote, listings), q) == PulledCell(strategy, remote, q, At(c, q))
  {
    if strategy.Both? && q != [] && IsDirectory(remote, Parent(q)) {
      var listing := ListingAt(remote, listings, Parent(q));
      forall j: nat ensures !SavesOver(c, remote, listing, j, q) {
        assert !SavesTo(c, remote, listings, j, q);
      }
      NoneSaves(c, remote, Parent(q), listing, q);
      LevelOf(c, Both, remote, listings, q);
      assert ChildOf(Parent(q), q);
    } else if strategy.Both? {
      PullByLevels(c, Both, remote, listings, q);
      assert q !in remote.nodes;
    } else {
      PullIsPointwise(c, strategy, remote, listings, q);
    }
  }

  /** What a pull makes of the cell to which the copy of the node `from` is saved: `node` is listed there,
      `earlier` when its turn comes before the saving. */
  function CopyCell(node: Option<Node>, earlier: bool, copy: Option<seq<Byte>>, from: Node, cell: Cell): Cell {
    // Strategy both never asks for the content of the listed node itself.
    var own := if node.Some? && earlier then PullCell(Both, None, node.value, cell) else cell;
    var saved := SavedCell(copy, from, own);
    var pulled := if node.Some? && !earlier then PullCell(Both, None, node.value, saved) else saved;
    if node.None? && pulled.row.Some? && (pulled.row.value.state.Clean? || pulled.row.value.state.Evicted?)
    then pulled.(row := None, file := None)
    else pulled
  }

  lemma BothIgnoresContent(got: Option<seq<Byte>>, node: Node, cell: Cell)
    ensures PullCell(Both, got, node, cell) == PullCell(Both, None, node, cell)
  {
  }

  lemma PullSaved(c: Cache, remote: Remote, listings: Listings, j: nat, q: Path)
    requires WellListed(remote, listings) && SavesTo(c, remote, listings, j, q)
    ensures var x := Source(c, remote, listings, j, q);
      At(Pull(c, Both, remote, listings), q)
      == CopyCell(Lookup(remote.nodes, q), Earlier(remote, listings, j, q), Get(remote, x), remote.nodes[x], At(c, q))
  {
    var listing := ListingAt(remote, listings, Parent(q));
    OneSaves(c, remote, Parent(q), listing, j, q);
    LevelOf(c, Both, remote, listings, q);
    assert ChildOf(Parent(q), q);
    assert forall p | p in listing[..j] :: p in listing;
    if q in remote.nodes {
      var saved := SavedCell(Get(remote, listing[j]), remote.nodes[listing[j]], At(c, q));
      BothIgnoresContent(Get(remote, q), remote.nodes[q], At(c, q));
      BothIgnoresContent(Get(remote, q), remote.nodes[q], saved);
    }
  }

  /** What survives of an edit, of a remote time and of a row under the copy. */
  lemma CopyCellKeeps(node: Option<Node>, earlier: bool, copy: Option<seq<Byte>>, from: Node, cell: Cell)
    requires cell.row.Some?
    ensures var after, e := CopyCell(node, earlier, copy, from, cell), cell.row.value;
      && (HoldsLocalData(e) ==>
            ((after.row.Some? && HoldsLocalData(after.row.value) && after.file == cell.file)
             <==> copy.None? && cell.file.None?))
      && (after.row.None? <==> node.None? && (copy.Some? || e.state.Clean? || e.state.Evicted?))
  {
  }

  lemma CopyCellSurvives(node: Option<Node>, earlier: bool, copy: Option<seq<Byte>>, from: Node, cell: Cell)
    requires copy.Some?
    ensures var after := CopyCell(node, earlier, copy, from, cell);
      after.row == Some(SidecarEntry(from)) && after.file == copy
      <==> node.Some? && (earlier || node.value.mtime <= from.mtime)
  {
  }

  lemma CopyCellTime(node: Option<Node>, earlier: bool, copy: Option<seq<Byte>>, from: Node, cell: Cell)
    requires cell.row.Some?
    ensures var after, time := CopyCell(node, earlier, copy, from, cell), cell.row.value.remoteMtime;
      (after.row.Some? && after.row.value.remoteMtime < time)
      <==> node.Some? && copy.Some? && from.mtime < time && (earlier || node.value.mtime < time)
  {
  }

  // ---------- How long the copy lives ----------

  /** The promise of strategy both is to keep both versions. After the pull that saves it, the copy is there,
      with its row and its bytes, if and only if its name is that of a listed file whose turn has come before
      or whose node is not newer than the copy. */
  lemma CopySurvives(c: Cache, remote: Remote, listings: Listings, j: nat, q: Path)
    requires WellListed(remote, listings) && SavesTo(c, remote, listings, j, q)
    requires Get(remote, Source(c, remote, listings, j, q)).Some?
    ensures var x, after := Source(c, remote, listings, j, q), At(Pull(c, Both, remote, listings), q);
      after.row == Some(SidecarEntry(remote.nodes[x])) && after.file == Get(remote, x)
      <==> q in remote.nodes && (Earlier(remote, listings, j, q) || remote.nodes[q].mtime <= remote.nodes[x].mtime)
  {
    var x := Source(c, remote, listings, j, q);
    PullSaved(c, remote, listings, j, q);
    CopyCellSurvives(Lookup(remote.nodes, q), Earlier(remote, listings, j, q), Get(remote, x), remote.nodes[x],
        At(c, q));
  }

  lemma SavesAtTurn(c: Cache, remote: Remote, listings: Listings, p: Path) returns (j: nat)
    requires WellListed(remote, listings) && p in remote.nodes
    requires Meets(remote.nodes[p], At(c, p)) && Free(c, Both, remote, p)
    ensures SavesTo(c, remote, listings, j, SidecarOf(remote, p))
        && Source(c, remote, listings, j, SidecarOf(remote, p)) == p
  {
    var dir, q := Parent(p), SidecarOf(remote, p);
    var listing := ListingAt(remote, listings, dir);
    assert ChildOf(dir, p) && p in listing;
    SidecarSibling(dir, p, remote.nodes[p].mtime);
    j :| 0 <= j < |listing| && listing[j] == p;
    var before := listing[..j];
    assert forall x | x in before :: x in listing;
    assert p !in before;
    EntriesEffect(c, Both, remote, dir, before, p);
    MeetsAtTurn(c, remote, dir, before, p);
  }

  /** A conflict over which nothing is saved itself, and whose copy nobody lists: the copy is gone, row and
      file, when the pull is over. */
  lemma SidecarDropped(c: Cache, remote: Remote, listings: Listings, p: Path)
    requires WellListed(remote, listings) && p in remote.nodes && Get(remote, p).Some?
    requires Meets(remote.nodes[p], At(c, p)) && Free(c, Both, remote, p) && SidecarOf(remote, p) !in remote.nodes
    ensures IsDirectory(remote, Parent(p))
    ensures var q := SidecarOf(remote, p);
      var saved := PullEntries(c, Both, remote, ListingAt(remote, listings, Parent(p)));
      && q in saved.rows && saved.rows[q] == SidecarEntry(remote.nodes[p]) && Lookup(saved.files, q) == Get(remote, p)
      && q !in Pull(c, Both, remote, listings).rows && q !in Pull(c, Both, remote, listings).files
  {
    var q := SidecarOf(remote, p);
    var j := SavesAtTurn(c, remote, listings, p);
    SidecarSibling(Parent(p), p, remote.nodes[p].mtime);
    assert Parent(q) == Parent(p);
    OneSaves(c, remote, Parent(q), ListingAt(remote, listings, Parent(q)), j, q);
    PullSaved(c, remote, listings, j, q);
    assert At(PullEntries(c, Both, remote, ListingAt(remote, listings, Parent(p))), q).row.Some?;
    assert At(Pull(c, Both, remote, listings), q).row.None? && At(Pull(c, Both, remote, listings), q).file.None?;
  }

  // ---------- What the saving does to others ----------

  lemma OneSource(c: Cache, remote: Remote, listings: Listings, j: nat, k: nat, q: Path)
    requires WellListed(remote, listings) && SavesTo(c, remote, listings, j, q) && SavesTo(c, remote, listings, k, q)
    ensures k == j
  {
    if k != j {
      SavesOnce(c, remote, Parent(q), ListingAt(remote, listings, Parent(q)), j, k, q);
    }
  }

  /** The saving does harm: there are local bytes, or a row comes in their place. */
  ghost predicate Harms(c: Cache, remote: Remote, listings: Listings, j: nat, p: Path)
    requires WellListed(remote, listings)
  {
    SavesTo(c, remote, listings, j, p) && (p in c.files || Get(remote, Source(c, remote, listings, j, p)).Some?)
  }

  /** Local edits survive a pull under both, local-wins and manual, the row as an edit or a conflict and the
      file with its bytes, if and only if no copy is saved over them. A download of the copy that fails
      removes the file as well. */
  lemma LocalEditsSurvive(c: Cache, strategy: Strategy, remote: Remote, listings: Listings, p: Path)
    requires WellListed(remote, listings) && !strategy.RemoteWins?
    requires p != [] && p in c.rows && HoldsLocalData(c.rows[p])
    ensures var before, after := At(c, p), At(Pull(c, strategy, remote, listings), p);
      (after.row.Some? && HoldsLocalData(after.row.value) && after.file == before.file)
      <==> !(strategy.Both? && exists j: nat :: Harms(c, remote, listings, j, p))
  {
    if Overwritten(c, strategy, remote, listings, p) {
      var j: nat :| SavesTo(c, remote, listings, j, p);
      EditsUnderCopy(c, remote, listings, j, p);
      forall k: nat | Harms(c, remote, listings, k, p) ensures Harms(c, remote, listings, j, p) {
        OneSource(c, remote, listings, j, k, p);
      }
    } else {
      PullOwn(c, strategy, remote, listings, p);
      CellKeepsEdits(strategy, remote, p, At(c, p));
    }
  }

  lemma EditsUnderCopy(c: Cache, remote: Remote, listings: Listings, j: nat, p: Path)
    requires WellListed(remote, listings) && SavesTo(c, remote, listings, j, p)
    requires p in c.rows && HoldsLocalData(c.rows[p])
    ensures var before, after := At(c, p), At(Pull(c, Both, remote, listings), p);
      (after.row.Some? && HoldsLocalData(after.row.value) && after.file == before.file)
          <==> !Harms(c, remote, listings, j, p)
  {
    var x := Source(c, remote, listings, j, p);
    PullSaved(c, remote, listings, j, p);
    CopyCellKeeps(Lookup(remote.nodes, p), Earlier(remote, listings, j, p), Get(remote, x), remote.nodes[x], At(c, p));
  }

  /** What becomes of an edit that survives: it stays as it is or, if it was Dirty or Syncing, becomes Dirty
      or Conflict. */
  lemma EditsOnlyConflict(c: Cache, strategy: Strategy, remote: Remote, listings: Listings, p: Path)
    requires WellListed(remote, listings) && !strategy.RemoteWins? && !Overwritten(c, strategy, remote, listings, p)
    requires p != [] && p in c.rows && HoldsLocalData(c.rows[p])
    ensures var before, after := At(c, p), At(Pull(c, strategy, remote, listings), p);
      && after.row.Some? && after.file == before.file
      && (after.row == before.row
          || (IsEdit(c.rows[p]) && (after.row.value.state.Dirty? || after.row.value.state.Conflict?)))
  {
    PullOwn(c, strategy, remote, listings, p);
    CellKeepsEdits(strategy, remote, p, At(c, p));
  }

  /** A copy older than `time` is saved over a listed path, after the turn of the path or when its own node is
      older than that too. */
  ghost predicate SetsBack(c: Cache, remote: Remote, listings: Listings, j: nat, p: Path, time: int)
    requires WellListed(remote, listings)
  {
    && p in remote.nodes && SavesTo(c, remote, listings, j, p)
    && var x := Source(c, remote, listings, j, p);
      Get(remote, x).Some? && remote.nodes[x].mtime < time
          && (Earlier(remote, listings, j, p) || remote.nodes[p].mtime < time)
  }

  lemma TimeUnderCopy(c: Cache, remote: Remote, listings: Listings, j: nat, p: Path)
    requires WellListed(remote, listings) && SavesTo(c, remote, listings, j, p) && p in c.rows
    ensures var after, time := At(Pull(c, Both, remote, listings), p), c.rows[p].remoteMtime;
      (after.row.Some? && after.row.value.remoteMtime < time) <==> SetsBack(c, remote, listings, j, p, time)
  {
    var x := Source(c, remote, listings, j, p);
    PullSaved(c, remote, listings, j, p);
    CopyCellTime(Lookup(remote.nodes, p), Earlier(remote, listings, j, p), Get(remote, x), remote.nodes[x], At(c, p));
  }

  /** The recorded remote time of a row that stays goes back exactly in that case, never under the other
      strategies. */
  lemma RemoteMtimeMonotone(c: Cache, strategy: Strategy, remote: Remote, listings: Listings, p: Path)
    requires WellListed(remote, listings) && p != [] && p in c.rows
    ensures var after, time := At(Pull(c, strategy, remote, listings), p), c.rows[p].remoteMtime;
      (after.row.Some? && after.row.value.remoteMtime < time)
      <==> strategy.Both? && exists j: nat :: SetsBack(c, remote, listings, j, p, time)
  {
    var time := c.rows[p].remoteMtime;
    if Overwritten(c, strategy, remote, listings, p) {
      var j: nat :| SavesTo(c, remote, listings, j, p);
      TimeUnderCopy(c, remote, listings, j, p);
      forall k: nat | SetsBack(c, remote, listings, k, p, time) ensures SetsBack(c, remote, listings, j, p, time) {
        OneSource(c, remote, listings, j, k, p);
      }
    } else {
      PullOwn(c, strategy, remote, listings, p);
      CellMtimeMonotone(strategy, remote, p, At(c, p));
    }
  }

  /** A downloaded copy takes the row of `p`. */
  ghost predicate Replaces(c: Cache, remote: Remote, listings: Listings, j: nat, p: Path)
    requires WellListed(remote, listings)
  {
    SavesTo(c, remote, listings, j, p) && Get(remote, Source(c, remote, listings, j, p)).Some?
  }

  lemma RowUnderCopy(c: Cache, remote: Remote, listings: Listings, j: nat, p: Path)
    requires WellListed(remote, listings) && SavesTo(c, remote, listings, j, p) && p in c.rows
    ensures At(Pull(c, Both, remote, listings), p).row.None? <==>
      p !in remote.nodes && (c.rows[p].state.Clean? || c.rows[p].state.Evicted? || Replaces(c, remote, listings, j, p))
  {
    var x := Source(c, remote, listings, j, p);
    PullSaved(c, remote, listings, j, p);
    CopyCellKeeps(Lookup(remote.nodes, p), Earlier(remote, listings, j, p), Get(remote, x), remote.nodes[x], At(c, p));
  }

  /** Exactly the clean or evicted rows of remote directories that are missing from the remote go, and under
      both also any other such row that a saved copy has replaced. */
  lemma DeletedExactly(c: Cache, strategy: Strategy, remote: Remote, listings: Listings, p: Path)
    requires WellListed(remote, listings) && p != [] && p in c.rows
    ensures At(Pull(c, strategy, remote, listings), p).row.None? <==>
      && p !in remote.nodes && IsDirectory(remote, Parent(p))
      && (|| c.rows[p].state.Clean? || c.rows[p].state.Evicted?
          || (strategy.Both? && exists j: nat :: Replaces(c, remote, listings, j, p)))
  {
    if Overwritten(c, strategy, remote, listings, p) {
      var j: nat :| SavesTo(c, remote, listings, j, p);
      RowUnderCopy(c, remote, listings, j, p);
      forall k: nat | Replaces(c, remote, listings, k, p) ensures Replaces(c, remote, listings, j, p) {
        OneSource(c, remote, listings, j, k, p);
      }
    } else {
      PullOwn(c, strategy, remote, listings, p);
      CellDeletedExactly(strategy, remote, p, At(c, p));
    }
  }

  // ---------- An input ----------

  const A: Path := ["a"]
  const B: Path := ["a.conflict.5"]
  const EDIT := Entry(false, 1, 1, 3, Dirty, None, false, false, 0)
  const TWO_EDITS := Cache(map[A := EDIT, B := EDIT], map[A := [3], B := [4]], map[])
  const ONE_FILE := Remote(map[A := Node(false, 5, [1])], {})
  const ONE_LISTING: Listings := map[[] := [A]]

  /** A dirty file that bears the name of the copy is replaced by the copy and goes with it. */
  lemma EditDropped()
    ensures WellListed(ONE_FILE, ONE_LISTING) && TWO_EDITS.rows[B].state.Dirty? && TWO_EDITS.files[B] == [4]
    ensures B !in Pull(TWO_EDITS, Both, ONE_FILE, ONE_LISTING).rows
  {
    assert DecimalInt(5) == "5";
    assert Sidecar(A, 5) == B by {
      assert Sidecar(A, 5)[0] == "a" + ".conflict." + "5" == "a.conflict.5";
    }
    assert A != B by {
      assert |A[0]| != |B[0]|;
    }
    assert ChildOf([], A) && Parent(A) == [] == Parent(B);
    assert forall dir | IsDirectory(ONE_FILE, dir) :: dir == [];
    forall p ensures p in ONE_LISTING[[]] <==> p in ONE_FILE.nodes && ChildOf([], p) {
    }
    assert ListedWell(ONE_FILE, ONE_LISTING, []);
    var listing := ListingAt(ONE_FILE, ONE_LISTING, []);
    assert listing == [A] && listing[..0] == [];
    assert MeetsNext(TWO_EDITS, ONE_FILE, [], A);
    assert SavesTo(TWO_EDITS, ONE_FILE, ONE_LISTING, 0, B);
    RowUnderCopy(TWO_EDITS, ONE_FILE, ONE_LISTING, 0, B);
    assert At(Pull(TWO_EDITS, Both, ONE_FILE, ONE_LISTING), B).row.None?;
  }
}
