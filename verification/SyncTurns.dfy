/** One path seen by the engine under local-wins: what a cycle, and any number of cycles, makes of its row,
    its file and its remote node, when the deletes and the listings of its directory are given. */
module SyncTurns {
  import opened Basics
  import opened Sync
  import opened SyncCycle

  // ---------- One path ----------

  /** The pull of one path under local-wins: `inDir` when its parent is a remote directory. */
  function Fetch(inDir: bool, place: Place): Cell {
    var cell := place.cell;
    if place.node.Some? then
      // Local-wins never asks for the content.
      PullCell(LocalWins, None, place.node.value, cell)
    else if inDir && cell.row.Some? && (cell.row.value.state.Clean? || cell.row.value.state.Evicted?) then
      cell.(row := None, file := None)
    else cell
  }

  /** One cycle at one path: upload, pending deletes, pull. */
  function Turn(broken: bool, deleted: bool, inDir: bool, place: Place): Place {
    var up := Upload(broken, place);
    var gone := if deleted then up.(node := None) else up;
    gone.(cell := Fetch(inDir, gone))
  }

  /** An uploaded edit. */
  predicate Settled(before: Cell, after: Place) {
    && before.row.Some? && before.file.Some?
    && after.cell.row.Some? && after.cell.row.value.state.Clean?
    && after.cell.file == before.file
    && after.node == Some(Node(false, before.row.value.localMtime, before.file.value))
    && after.cell.row.value.remoteMtime == before.row.value.localMtime
  }

  /** An edit that was uploaded and then deleted: the remote lacks it, and a pull that lists its directory has
      dropped the local copy too. */
  predicate Lost(before: Cell, after: Place) {
    && after.node.None?
    && if after.cell.row.None? then after.cell.file.None?
       else after.cell.row.value.state.Clean? && after.cell.file == before.file
  }

  lemma FirstTurn(deleted: bool, inDir: bool, place: Place)
    requires DirtyCell(place.cell) && place.cell.file.Some?
    ensures var after := Turn(false, deleted, inDir, place);
      if Moved(place.node, place.cell.row.value) then
        DirtyCell(after.cell) && after.cell.file == place.cell.file && (after.node.None? <==> deleted)
      else if deleted then Lost(place.cell, after) && (after.cell.row.None? <==> inDir)
      else Settled(place.cell, after)
  {
  }

  /** Two turns settle an edit, unless the first uploads it and deletes it, or the second deletes it. */
  lemma TwoTurns(first: bool, one: bool, second: bool, two: bool, place: Place)
    requires DirtyCell(place.cell) && place.cell.file.Some?
    ensures var moved := Moved(place.node, place.cell.row.value);
      var after := Turn(false, second, two, Turn(false, first, one, place));
      if (moved || !first) && !second then Settled(place.cell, after)
      else
        && Lost(place.cell, after)
        && (after.cell.row.None? <==> two || (one && first && !moved))
  {
  }

  lemma SettledTurn(deleted: bool, inDir: bool, before: Cell, place: Place)
    requires Settled(before, place)
    ensures var after := Turn(false, deleted, inDir, place);
      if deleted then Lost(before, after) && (after.cell.row.None? <==> inDir) else after == place
  {
  }

  lemma LostTurn(deleted: bool, inDir: bool, before: Cell, place: Place)
    requires Lost(before, place)
    ensures var after := Turn(false, deleted, inDir, place);
      Lost(before, after) && (after.cell.row.None? <==> place.cell.row.None? || inDir)
  {
  }

  /** A file whose transfer fails stays dirty. */
  lemma BrokenTurn(deleted: bool, inDir: bool, place: Place)
    requires DirtyCell(place.cell)
    ensures DirtyCell(Turn(true, deleted, inDir, place).cell)
  {
  }

  /** There is nothing to upload, and the row knows what the remote node says. */
  predicate Late(broken: bool, place: Place) {
    Upload(broken, place) == place && (place.node.Some? ==> Fetch(false, place) == place.cell)
  }

  lemma LateAfterTwo(broken: bool, first: bool, one: bool, second: bool, two: bool, place: Place)
    ensures Late(broken, Turn(broken, second, two, Turn(broken, first, one, place)))
  {
  }

  /** A late turn takes away what is deleted and fetches what is left. */
  lemma LateTurn(broken: bool, deleted: bool, inDir: bool, place: Place)
    requires Late(broken, place)
    ensures var after := Turn(broken, deleted, inDir, place);
      && after.node == (if deleted then None else place.node)
      && (Fetch(inDir, place) == place.cell && after.node == place.node ==> after == place)
  {
  }

  lemma FetchTwice(broken: bool, deleted: bool, inDir: bool, place: Place)
    ensures var after := Turn(broken, deleted, inDir, place); Fetch(inDir, after) == after.cell
  {
  }

  /** The node is newer than what the row knows, also of a file never synced. */
  predicate Newer(node: Option<Node>, e: Entry) {
    node.Some? && node.value.mtime > e.remoteMtime
  }

  /** An edit that cannot be uploaded, and is dirty or becomes so by the first pull. */
  predicate StaysDirty(broken: bool, deleted: bool, place: Place) {
    && place.cell.row.Some? && !place.cell.row.value.isDir && (broken || place.cell.file.None?)
    && (place.cell.row.value.state.Dirty?
        || (place.cell.row.value.state.Syncing? && !deleted && Newer(place.node, place.cell.row.value)))
  }

  /** An edit that can be uploaded is no dirty file after two turns. */
  lemma CleanAfterTwo(first: bool, one: bool, second: bool, two: bool, place: Place)
    requires place.cell.file.Some?
    ensures !DirtyCell(Turn(false, second, two, Turn(false, first, one, place)).cell)
  {
  }

  /** One that cannot be uploaded is dirty after a turn exactly if it stays so. */
  lemma DirtyAfterOne(broken: bool, deleted: bool, inDir: bool, place: Place)
    requires broken || place.cell.file.None?
    ensures var after := Turn(broken, deleted, inDir, place);
      (DirtyCell(after.cell) <==> StaysDirty(broken, deleted, place))
          && (after.cell.file.Some? ==> place.cell.file.Some?)
  {
  }

  /** What is dirty stays dirty, and what only then is Syncing knows the remote time. */
  lemma DirtyAgain(broken: bool, first: bool, one: bool, second: bool, two: bool, place: Place)
    requires broken || place.cell.file.None?
    ensures DirtyCell(Turn(broken, second, two, Turn(broken, first, one, place)).cell)
        <==> DirtyCell(Turn(broken, first, one, place).cell)
  {
  }

  lemma DirtyAfterTwo(broken: bool, first: bool, one: bool, second: bool, two: bool, place: Place)
    ensures DirtyCell(Turn(broken, second, two, Turn(broken, first, one, place)).cell)
        <==> StaysDirty(broken, first, place)
  {
    if broken || place.cell.file.None? {
      DirtyAfterOne(broken, first, one, place);
      DirtyAgain(broken, first, one, second, two, place);
    } else {
      CleanAfterTwo(first, one, second, two, place);
    }
  }

  lemma DirtyLate(broken: bool, deleted: bool, inDir: bool, place: Place)
    requires Late(broken, place)
    ensures DirtyCell(Turn(broken, deleted, inDir, place).cell) <==> DirtyCell(place.cell)
  {
  }

  // ---------- One path through many cycles ----------

  /** What n turns make of a place: `deleted(k)` when the k-th batch deletes it, `inDir(k)` when its parent is
      a remote directory after k cycles. */
  function Turns(broken: bool, deleted: nat -> bool, inDir: nat -> bool, place: Place, n: nat): Place {
    if n == 0 then place
    else Turn(broken, deleted(n - 1), inDir(n), Turns(broken, deleted, inDir, place, n - 1))
  }

  ghost predicate AreTurns(broken: bool, deleted: nat -> bool, inDir: nat -> bool, places: nat -> Place) {
    forall k: nat {:trigger places(k + 1)} :: places(k + 1) == Turn(broken, deleted(k), inDir(k + 1), places(k))
  }

  lemma {:induction false} TurnsOf(broken: bool, deleted: nat -> bool, inDir: nat -> bool, places: nat -> Place, n: nat)
    requires AreTurns(broken, deleted, inDir, places)
    ensures places(n) == Turns(broken, deleted, inDir, places(0), n)
  {
    if n > 0 {
      var k := n - 1;
      TurnsOf(broken, deleted, inDir, places, k);
      assert places(k + 1) == Turn(broken, deleted(k), inDir(k + 1), places(k));
    }
  }

  /** No turn before the n-th deletes the edit after its upload. A file that the remote has moved past is
      uploaded by the second turn only, so the first delete does it no harm. */
  ghost predicate Spared(moved: bool, deleted: nat -> bool, n: nat) {
    (moved || !deleted(0)) && forall k: nat | 1 <= k < n :: !deleted(k)
  }

  /** One of the first n pulls has listed the directory of the edit after it was lost. */
  ghost predicate Missed(moved: bool, deleted: nat -> bool, inDir: nat -> bool, n: nat) {
    exists k: nat :: 1 <= k <= n && !Spared(moved, deleted, k) && inDir(k)
  }

  lemma MissedNext(moved: bool, deleted: nat -> bool, inDir: nat -> bool, n: nat)
    ensures Missed(moved, deleted, inDir, n + 1) <==>
      Missed(moved, deleted, inDir, n) || (!Spared(moved, deleted, n + 1) && inDir(n + 1))
  {
  }

  lemma NotMissed(moved: bool, deleted: nat -> bool, inDir: nat -> bool, n: nat)
    requires Spared(moved, deleted, n)
    ensures !Missed(moved, deleted, inDir, n)
  {
  }

  /** After two turns an edit is settled or lost, and stays one of both; what decides are the deletes. */
  lemma {:induction false} SettledOrLost(deleted: nat -> bool, inDir: nat -> bool, place: Place, n: nat)
    requires DirtyCell(place.cell) && place.cell.file.Some? && n >= 2
    ensures var moved, after := Moved(place.node, place.cell.row.value), Turns(false, deleted, inDir, place, n);
      if Spared(moved, deleted, n) then Settled(place.cell, after)
      else Lost(place.cell, after) && (after.cell.row.None? <==> Missed(moved, deleted, inDir, n))
  {
    var moved, before := Moved(place.node, place.cell.row.value), Turns(false, deleted, inDir, place, n - 1);
    MissedNext(moved, deleted, inDir, n - 1);
    if n == 2 {
      assert Turns(false, deleted, inDir, place, 1) == Turn(false, deleted(0), inDir(1), place);
      MissedNext(moved, deleted, inDir, 0);
      TwoTurns(deleted(0), inDir(1), deleted(1), inDir(2), place);
    } else {
      SettledOrLost(deleted, inDir, place, n - 1);
      if Spared(moved, deleted, n - 1) {
        SettledTurn(deleted(n - 1), inDir(n), place.cell, before);
        NotMissed(moved, deleted, inDir, n - 1);
      } else {
        LostTurn(deleted(n - 1), inDir(n), place.cell, before);
      }
    }
  }

  lemma LostTurns(deleted: nat -> bool, inDir: nat -> bool, place: Place, n: nat)
    requires DirtyCell(place.cell) && place.cell.file.Some? && n >= 1
    ensures var moved, after := Moved(place.node, place.cell.row.value), Turns(false, deleted, inDir, place, n);
      && (after.node.None? <==> if n == 1 then deleted(0) else !Spared(moved, deleted, n))
      && (after.cell.file.None? <==> Missed(moved, deleted, inDir, n))
      && (after.cell.row.None? <==> Missed(moved, deleted, inDir, n))
  {
    var moved := Moved(place.node, place.cell.row.value);
    if n == 1 {
      assert Turns(false, deleted, inDir, place, 1) == Turn(false, deleted(0), inDir(1), place);
      FirstTurn(deleted(0), inDir(1), place);
      MissedNext(moved, deleted, inDir, 0);
    } else {
      SettledOrLost(deleted, inDir, place, n);
      if Spared(moved, deleted, n) {
        NotMissed(moved, deleted, inDir, n);
      }
    }
  }

  lemma {:induction false} BrokenTurns(deleted: nat -> bool, inDir: nat -> bool, place: Place, n: nat)
    requires DirtyCell(place.cell)
    ensures DirtyCell(Turns(true, deleted, inDir, place, n).cell)
  {
    if n > 0 {
      BrokenTurns(deleted, inDir, place, n - 1);
      BrokenTurn(deleted(n - 1), inDir(n), Turns(true, deleted, inDir, place, n - 1));
    }
  }

  lemma {:induction false} LateTurns(broken: bool, deleted: nat -> bool, inDir: nat -> bool, place: Place, n: nat)
    requires n >= 2
    ensures var after := Turns(broken, deleted, inDir, place, n);
      Late(broken, after) && Fetch(inDir(n), after) == after.cell
          && (DirtyCell(after.cell) <==> StaysDirty(broken, deleted(0), place))
  {
    var before := Turns(broken, deleted, inDir, place, n - 2);
    var between := Turn(broken, deleted(n - 2), inDir(n - 1), before);
    assert Turns(broken, deleted, inDir, place, n - 1) == between;
    LateAfterTwo(broken, deleted(n - 2), inDir(n - 1), deleted(n - 1), inDir(n), before);
    FetchTwice(broken, deleted(n - 1), inDir(n), between);
    if n == 2 {
      DirtyAfterTwo(broken, deleted(0), inDir(1), deleted(1), inDir(2), place);
    } else {
      LateTurns(broken, deleted, inDir, place, n - 1);
      DirtyLate(broken, deleted(n - 1), inDir(n), between);
    }
  }

  // ---------- Transfers that fail for a while ----------

  /** The same edit: the bytes and the time of the local change. */
  predicate SameEdit(a: Cell, b: Cell) {
    DirtyCell(a) && DirtyCell(b) && a.file == b.file && a.row.value.localMtime == b.row.value.localMtime
  }

  lemma FailedTurn(deleted: bool, inDir: bool, place: Place)
    requires DirtyCell(place.cell)
    ensures SameEdit(place.cell, Turn(true, deleted, inDir, place).cell)
  {
  }

  lemma {:induction false} FailedTurns(deleted: nat -> bool, inDir: nat -> bool, places: nat -> Place, m: nat)
    requires DirtyCell(places(0).cell)
    requires forall k: nat {:trigger places(k + 1)} | k < m ::
      places(k + 1) == Turn(true, deleted(k), inDir(k + 1), places(k))
    ensures SameEdit(places(0).cell, places(m).cell)
  {
    if m > 0 {
      var k := m - 1;
      FailedTurns(deleted, inDir, places, k);
      assert places(k + 1) == Turn(true, deleted(k), inDir(k + 1), places(k));
      FailedTurn(deleted(k), inDir(k + 1), places(k));
    }
  }

  /** The run from its m-th state on. */
  function From<T>(f: nat -> T, m: nat): nat -> T {
    (k: nat) => f(m + k)
  }

  /** What decides once the transfers succeed are the deletes from then on. */
  lemma SettledOrLostFrom(deleted: nat -> bool, inDir: nat -> bool, places: nat -> Place, m: nat, n: nat)
    requires DirtyCell(places(m).cell) && places(m).cell.file.Some? && n >= m + 2
    requires forall k: nat {:trigger places(k + 1)} | m <= k ::
      places(k + 1) == Turn(false, deleted(k), inDir(k + 1), places(k))
    ensures var place := places(m);
      var moved := Moved(place.node, place.cell.row.value);
      Settled(place.cell, places(n)) <==> Spared(moved, From(deleted, m), n - m)
  {
    var late := From(places, m);
    forall k: nat {:trigger late(k + 1)}
      ensures late(k + 1) == Turn(false, From(deleted, m)(k), From(inDir, m)(k + 1), late(k))
    {
      var j := m + k;
      assert places(j + 1) == Turn(false, deleted(j), inDir(j + 1), places(j));
      assert m + (k + 1) == j + 1;
    }
    TurnsOf(false, From(deleted, m), From(inDir, m), late, n - m);
    SettledOrLost(From(deleted, m), From(inDir, m), places(m), n - m);
  }
}
