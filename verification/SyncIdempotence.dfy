/** When a second pull of the same tree changes nothing: always but under `Both`, and there unless a saved
    copy has overwritten the row of a newer listed file. Both directions, for every database and listing. */
module SyncIdempotence {
  import opened Basics
  import opened Paths
  import opened Sync
  import opened SyncPull

  // ---------- Sidecar names ----------

  lemma {:induction false} NoDot(n: nat)
    ensures '.' !in Decimal(n) && Decimal(n) != ""
  {
    if n >= 10 {
      NoDot(n / 10);
    }
  }

  lemma NoDotInt(n: int)
    ensures '.' !in DecimalInt(n)
  {
    NoDot(if n < 0 then -n else n);
  }

  /** The text before the last dot decides. */
  lemma LastDot(a: string, b: string, x: string, y: string)
    requires a + "." + x == b + "." + y && '.' !in x && '.' !in y
    ensures a == b
  {
    var s, t := a + "." + x, b + "." + y;
    assert s[|a|] == '.' && t[|b|] == '.';
    assert forall i | |a| < i < |s| :: s[i] == x[i - |a| - 1];
    assert forall i | |b| < i < |t| :: t[i] == y[i - |b| - 1];
    assert |a| == |b|;
    assert a == s[..|a|] == t[..|b|] == b;
  }

  lemma SuffixInjective(a: string, b: string, x: string, y: string)
    requires a + ".conflict." + x == b + ".conflict." + y && '.' !in x && '.' !in y
    ensures a == b
  {
    var s, t := a + ".conflict", b + ".conflict";
    assert a + ".conflict." + x == s + "." + x && b + ".conflict." + y == t + "." + y;
    LastDot(s, t, x, y);
    assert a == s[..|s| - 9] == t[..|t| - 9] == b;
  }

  /** Different files have different sidecars. */
  lemma SidecarInjective(p: Path, m: int, q: Path, n: int)
    requires p != [] && q != [] && Sidecar(p, m) == Sidecar(q, n)
    ensures p == q
  {
    var x, y := DecimalInt(m), DecimalInt(n);
    NoDotInt(m);
    NoDotInt(n);
    SameSidecar(p, x, q, y);
  }

  lemma {:induction false} DecimalDigits(n: nat)
    ensures Decimal(n) != "" && Decimal(n)[0] != '-' && (n >= 10 <==> |Decimal(n)| > 1)
    decreases n
  {
    if n >= 10 {
      DecimalDigits(n / 10);
      assert Decimal(n)[0] == Decimal(n / 10)[0];
    }
  }

  lemma {:induction false} DecimalInjective(m: nat, n: nat)
    requires Decimal(m) == Decimal(n)
    ensures m == n
    decreases m
  {
    DecimalDigits(m);
    DecimalDigits(n);
    if m >= 10 {
      var a, b := Decimal(m), Decimal(n);
      assert a[..|a| - 1] == Decimal(m / 10) && b[..|b| - 1] == Decimal(n / 10);
      DecimalInjective(m / 10, n / 10);
      assert a[|a| - 1] == "0123456789"[m % 10] && b[|b| - 1] == "0123456789"[n % 10];
    }
  }

  /** The saved copies of one file at different remote times have different names. */
  lemma SidecarTimes(p: Path, m: int, n: int)
    requires p != [] && Sidecar(p, m) == Sidecar(p, n)
    ensures m == n
  {
    var name := p[|p| - 1] + ".conflict.";
    assert Sidecar(p, m)[|p| - 1] == name + DecimalInt(m) && Sidecar(p, n)[|p| - 1] == name + DecimalInt(n);
    assert (name + DecimalInt(m))[|name|..] == DecimalInt(m) && (name + DecimalInt(n))[|name|..] == DecimalInt(n);
    var x, y := if m < 0 then -m else m, if n < 0 then -n else n;
    DecimalDigits(x);
    DecimalDigits(y);
    if m < 0 && n < 0 {
      assert DecimalInt(m)[1..] == Decimal(x) && DecimalInt(n)[1..] == Decimal(y);
    }
    DecimalInjective(x, y);
  }

  lemma SameSidecar(p: Path, x: string, q: Path, y: string)
    requires p != [] && q != [] && '.' !in x && '.' !in y
    requires p[..|p| - 1] + [p[|p| - 1] + ".conflict." + x] == q[..|q| - 1] + [q[|q| - 1] + ".conflict." + y]
    ensures p == q
  {
    var s, t := p[..|p| - 1] + [p[|p| - 1] + ".conflict." + x], q[..|q| - 1] + [q[|q| - 1] + ".conflict." + y];
    assert |p| == |s| == |t| == |q|;
    assert p[..|p| - 1] == s[..|p| - 1] == t[..|q| - 1] == q[..|q| - 1];
    assert s[|p| - 1] == t[|q| - 1];
    SuffixInjective(p[|p| - 1], q[|q| - 1], x, y);
    assert p == p[..|p| - 1] + [p[|p| - 1]] && q == q[..|q| - 1] + [q[|q| - 1]];
  }

  // ---------- The loop over one listing, from its inputs alone ----------

  ghost predicate Listed(remote: Remote, listing: seq<Path>) {
    forall p | p in listing :: p in remote.nodes && p != []
  }

  /** After the files `before` it is the turn of `p`, and it is a conflict: an edit that knows an older
      remote time, over whose row no copy was saved so far. */
  ghost predicate MeetsNext(c: Cache, remote: Remote, before: seq<Path>, p: Path)
    requires Listed(remote, before) && p in remote.nodes
    decreases |before|, 1
  {
    Meets(remote.nodes[p], At(c, p)) && !SavedTo(c, remote, before, p)
  }

  /** The loop over `listing` saves a downloaded copy to `x`. */
  ghost predicate SavedTo(c: Cache, remote: Remote, listing: seq<Path>, x: Path)
    requires Listed(remote, listing)
    decreases |listing|, 0
  {
    listing != [] &&
    var rest, last := listing[..|listing| - 1], listing[|listing| - 1];
    assert last in listing && forall p | p in rest :: p in listing;
    SavedTo(c, remote, rest, x)
    || (MeetsNext(c, remote, rest, last) && Get(remote, last).Some? && SidecarOf(remote, last) == x)
  }

  lemma SavedSnoc(c: Cache, remote: Remote, rest: seq<Path>, last: Path, x: Path)
    requires Listed(remote, rest) && Listed(remote, rest + [last]) && last in remote.nodes && last != []
    ensures SavedTo(c, remote, rest + [last], x) <==>
      SavedTo(c, remote, rest, x)
          || (MeetsNext(c, remote, rest, last) && Get(remote, last).Some? && SidecarOf(remote, last) == x)
  {
    assert (rest + [last])[..|rest|] == rest;
  }

  /** Before its turn a row is as it was, except when a copy was saved to it. */
  lemma {:induction false} BeforeTurnExactly(c: Cache, remote: Remote, dir: Path, listing: seq<Path>, x: Path)
    requires ListingOf(remote, dir, listing) && x !in listing
    ensures var row := At(PullEntries(c, Both, remote, listing), x).row;
      if SavedTo(c, remote, listing, x) then row.Some? && row.value.state.Clean? else row == At(c, x).row
    decreases |listing|
  {
    if listing != [] {
      var rest, last := ListingSnoc(remote, dir, listing);
      BeforeTurnExactly(c, remote, dir, rest, x);
      BeforeTurnExactly(c, remote, dir, rest, last);
      EntryEffect(PullEntries(c, Both, remote, rest), Both, remote, last, x);
      SavedSnoc(c, remote, rest, last, x);
      assert MeetsNext(c, remote, rest, last)
          <==> Meets(remote.nodes[last], At(PullEntries(c, Both, remote, rest), last));
    }
  }

  lemma MeetsAtTurn(c: Cache, remote: Remote, dir: Path, before: seq<Path>, p: Path)
    requires ListingOf(remote, dir, before) && p !in before && p in remote.nodes
    ensures MeetsNext(c, remote, before, p) <==> Meets(remote.nodes[p], At(PullEntries(c, Both, remote, before), p))
  {
    BeforeTurnExactly(c, remote, dir, before, p);
  }

  /** The i-th listed file has the name of the sidecar of the j-th, which comes later, is a conflict when
      its turn comes, can be downloaded, and is older than the i-th. */
  ghost predicate Clash(c: Cache, remote: Remote, listing: seq<Path>, i: nat, j: nat)
    requires Listed(remote, listing)
  {
    && i < j < |listing|
    && (forall p | p in listing[..j] :: p in listing)
    && listing[i] in listing && listing[j] in listing
    && SidecarOf(remote, listing[j]) == listing[i]
    && MeetsNext(c, remote, listing[..j], listing[j])
    && Get(remote, listing[j]).Some?
    && remote.nodes[listing[i]].mtime > remote.nodes[listing[j]].mtime
  }

  ghost predicate ClashAt(c: Cache, remote: Remote, listing: seq<Path>, q: Path)
    requires Listed(remote, listing)
  {
    exists i: nat, j: nat :: Clash(c, remote, listing, i, j) && listing[i] == q
  }

  /** A clean row that is older than the remote: the next pull changes it. */
  predicate Outdated(node: Node, cell: Cell) {
    cell.row.Some? && (cell.row.value.state.Clean? || cell.row.value.state.Evicted?)
        && node.mtime > cell.row.value.remoteMtime
  }

  lemma ClashPrefix(c: Cache, remote: Remote, rest: seq<Path>, last: Path, i: nat, j: nat)
    requires Listed(remote, rest) && Listed(remote, rest + [last]) && j < |rest|
    ensures Clash(c, remote, rest, i, j) <==> Clash(c, remote, rest + [last], i, j)
  {
    if i < j {
      assert (rest + [last])[..j] == rest[..j];
      assert (rest + [last])[i] == rest[i] && (rest + [last])[j] == rest[j];
      assert rest[i] in rest && rest[j] in rest && rest[i] in rest + [last] && rest[j] in rest + [last];
    }
  }

  /** One more file at the end of the listing brings a clash at `q` exactly when it saves over it. */
  lemma ClashSnoc(c: Cache, remote: Remote, rest: seq<Path>, last: Path, q: Path)
    requires Listed(remote, rest) && Listed(remote, rest + [last]) && q in rest && last in remote.nodes && last != []
    ensures ClashAt(c, remote, rest + [last], q) <==>
      || ClashAt(c, remote, rest, q)
      || (MeetsNext(c, remote, rest, last) && Get(remote, last).Some? && SidecarOf(remote, last) == q
          && remote.nodes[q].mtime > remote.nodes[last].mtime)
  {
    var all := rest + [last];
    if ClashAt(c, remote, rest, q) {
      var i: nat, j: nat :| Clash(c, remote, rest, i, j) && rest[i] == q;
      ClashPrefix(c, remote, rest, last, i, j);
      assert all[i] == q;
    }
    assert all[..|rest|] == rest && all[|rest|] == last;
    if MeetsNext(c, remote, rest, last) && Get(remote, last).Some? && SidecarOf(remote, last) == q
       && remote.nodes[q].mtime > remote.nodes[last].mtime {
      var i: nat :| i < |rest| && rest[i] == q;
      assert all[i] in all && all[|rest|] in all;
      assert Clash(c, remote, all, i, |rest|) && all[i] == q;
    }
    if ClashAt(c, remote, all, q) {
      var i: nat, j: nat :| Clash(c, remote, all, i, j) && all[i] == q;
      if j < |rest| {
        ClashPrefix(c, remote, rest, last, i, j);
        assert rest[i] == q;
      }
    }
  }

  /** No two files save to the same path. */
  lemma OneSaver(c: Cache, remote: Remote, dir: Path, rest: seq<Path>, last: Path, q: Path)
    requires ListingOf(remote, dir, rest) && last !in rest && last in remote.nodes && last != []
    requires SidecarOf(remote, last) == q
    ensures !ClashAt(c, remote, rest, q)
  {
    if ClashAt(c, remote, rest, q) {
      var i: nat, j: nat :| Clash(c, remote, rest, i, j) && rest[i] == q;
      SidecarInjective(rest[j], remote.nodes[rest[j]].mtime, last, remote.nodes[last].mtime);
    }
  }

  /** The cell of `q` is past its conflict, and outdated exactly if `clash`. */
  predicate Passed(node: Node, cell: Cell, clash: bool) {
    cell.row.Some? && !Meets(node, cell) && (Outdated(node, cell) <==> clash)
  }

  /** The turn of `q` itself brings it up to date. */
  lemma OwnTurnPasses(got: Option<seq<Byte>>, node: Node, cell: Cell)
    ensures Passed(node, PullCell(Both, got, node, cell), false)
  {
  }

  /** A copy of the node `from` saved over it puts it behind if it is older than its node. */
  lemma SavingPasses(node: Node, cell: Cell, clash: bool, got: Option<seq<Byte>>, from: Node)
    requires Passed(node, cell, clash)
    ensures Passed(node, SavedCell(got, from, cell), if got.Some? then node.mtime > from.mtime else clash)
  {
  }

  lemma NoClashAtLast(c: Cache, remote: Remote, dir: Path, rest: seq<Path>, last: Path)
    requires ListingOf(remote, dir, rest + [last]) && last !in rest && Listed(remote, rest + [last])
    ensures !ClashAt(c, remote, rest + [last], last)
  {
    var listing := rest + [last];
    forall i: nat, j: nat | Clash(c, remote, listing, i, j) ensures listing[i] != last {
      assert listing[i] == rest[i] && rest[i] in rest;
    }
  }

  /** After the loop no listed file is a conflict any more, and a row is outdated exactly at a clash. */
  lemma {:induction false} OutdatedExactly(c: Cache, remote: Remote, dir: Path, listing: seq<Path>, q: Path)
    requires ListingOf(remote, dir, listing) && q in listing
    ensures Passed(remote.nodes[q], At(PullEntries(c, Both, remote, listing), q), ClashAt(c, remote, listing, q))
    decreases |listing|
  {
    var rest, last := ListingSnoc(remote, dir, listing);
    var d := PullEntries(c, Both, remote, rest);
    EntryEffect(d, Both, remote, last, q);
    if q == last {
      OwnTurnPasses(Get(remote, q), remote.nodes[q], At(d, q));
      NoClashAtLast(c, remote, dir, rest, last);
    } else {
      OutdatedExactly(c, remote, dir, rest, q);
      MeetsAtTurn(c, remote, dir, rest, last);
      ClashSnoc(c, remote, rest, last, q);
      if SidecarOf(remote, last) == q {
        OneSaver(c, remote, dir, rest, last, q);
        SavingPasses(remote.nodes[q], At(d, q), false, Get(remote, last), remote.nodes[last]);
      }
    }
  }

  // ---------- The whole tree ----------

  ghost predicate SomeClash(c: Cache, remote: Remote, listings: Listings)
    requires WellListed(remote, listings)
  {
    exists q :: q in remote.nodes && ClashIn(c, remote, listings, q)
  }

  ghost predicate ClashIn(c: Cache, remote: Remote, listings: Listings, q: Path)
    requires WellListed(remote, listings) && q in remote.nodes
  {
    ListedIsListing(remote, listings, Parent(q));
    ClashAt(c, remote, listings[Parent(q)], q)
  }

  lemma AfterPull(c: Cache, remote: Remote, listings: Listings, q: Path)
    requires WellListed(remote, listings) && q in remote.nodes
    ensures var cell := At(Pull(c, Both, remote, listings), q);
      && cell.row.Some? && !Meets(remote.nodes[q], cell)
      && (Outdated(remote.nodes[q], cell) <==> ClashIn(c, remote, listings, q))
  {
    var dir := Parent(q);
    ListedIsListing(remote, listings, dir);
    PullByLevels(c, Both, remote, listings, q);
    assert ChildOf(dir, q);
    OutdatedExactly(c, remote, dir, listings[dir], q);
    DropEffect(PullEntries(c, Both, remote, listings[dir]), dir, (set p | p in listings[dir]), q);
  }

  /** A path that is not remote is done with after one pull. */
  lemma UnlistedDone(c: Cache, strategy: Strategy, remote: Remote, listings: Listings, q: Path)
    requires WellListed(remote, listings) && q !in remote.nodes
    ensures var cell := At(Pull(c, strategy, remote, listings), q); PulledCell(strategy, remote, q, cell) == cell
  {
    PullByLevels(c, strategy, remote, listings, q);
    if q != [] && IsDirectory(remote, Parent(q)) {
      var dir := Parent(q);
      ListedIsListing(remote, listings, dir);
      DropEffect(PullEntries(c, strategy, remote, listings[dir]), dir, (set p | p in listings[dir]), q);
    }
  }

  lemma BothAgain(c: Cache, remote: Remote, one: Listings, two: Listings, q: Path)
    requires WellListed(remote, one) && WellListed(remote, two)
    ensures var d := Pull(c, Both, remote, one);
      At(Pull(d, Both, remote, two), q) == At(d, q) <==> !(q in remote.nodes && ClashIn(c, remote, one, q))
  {
    var d := Pull(c, Both, remote, one);
    forall x | Targets(d, remote, x, q) ensures false {
      AfterPull(c, remote, one, x);
    }
    PullIsPointwise(d, Both, remote, two, q);
    if q in remote.nodes {
      AfterPull(c, remote, one, q);
    } else {
      UnlistedDone(c, Both, remote, one, q);
    }
  }

  lemma OthersAgain(c: Cache, strategy: Strategy, remote: Remote, one: Listings, two: Listings, q: Path)
    requires WellListed(remote, one) && WellListed(remote, two) && !strategy.Both?
    ensures var d := Pull(c, strategy, remote, one); At(Pull(d, strategy, remote, two), q) == At(d, q)
  {
    PullIsPointwise(c, strategy, remote, one, q);
    PullIsPointwise(Pull(c, strategy, remote, one), strategy, remote, two, q);
    PulledCellIdempotent(strategy, remote, q, At(c, q));
  }

  /** Pull idempotence, exactly: a second pull of the same tree, with its listings in any order, changes no
      row, no conflict record and no cached file, unless the strategy is `Both` and some listed file has
      the name of the sidecar of an older file listed after it that was a conflict and was downloaded. */
  lemma PullIdempotent(c: Cache, strategy: Strategy, remote: Remote, one: Listings, two: Listings)
    requires WellListed(remote, one) && WellListed(remote, two)
    ensures var d := Pull(c, strategy, remote, one);
      Pull(d, strategy, remote, two) == d <==> !(strategy.Both? && SomeClash(c, remote, one))
  {
    var d := Pull(c, strategy, remote, one);
    var e := Pull(d, strategy, remote, two);
    if strategy.Both? {
      if SomeClash(c, remote, one) {
        var q :| q in remote.nodes && ClashIn(c, remote, one, q);
        BothAgain(c, remote, one, two, q);
      } else {
        forall q ensures At(e, q) == At(d, q) {
          BothAgain(c, remote, one, two, q);
        }
        SameCells(e, d);
      }
    } else {
      forall q ensures At(e, q) == At(d, q) {
        OthersAgain(c, strategy, remote, one, two, q);
      }
      SameCells(e, d);
    }
  }
}
