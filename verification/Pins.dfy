/** The compaction of pinned paths for display: a directory whose files are all pinned stands for them. */
module Pins {
  import Basics
  import opened Paths
  import opened Sync

  type Rows = map<Path, Entry>

  predicate IsFile(rows: Rows, p: Path) {
    p in rows && !rows[p].isDir
  }

  predicate IsPinned(rows: Rows, p: Path) {
    p in rows && rows[p].pinned
  }

  /** Some file below the directory, and every one of them pinned. */
  ghost predicate FullyPinned(rows: Rows, d: Path) {
    && d in rows && rows[d].isDir
    && (exists f :: IsFile(rows, f) && Under(d, f))
    && (forall f | IsFile(rows, f) && Under(d, f) :: rows[f].pinned)
  }

  /** A fully pinned directory above stands for it. */
  ghost predicate Hidden(rows: Rows, p: Path) {
    exists d :: FullyPinned(rows, d) && Under(d, p)
  }

  /** The entries that the compaction should show. */
  ghost predicate Shown(rows: Rows, p: Path) {
    (IsPinned(rows, p) || FullyPinned(rows, p)) && !Hidden(rows, p)
  }

  /** Rows have relative paths without empty names; the root has no row. */
  predicate RealPaths(rows: Rows) {
    forall p | p in rows :: p != [] && Clean(p)
  }

  // ---------- What the display means ----------

  /** Above every hidden path there is a fully pinned directory that is itself not hidden. */
  lemma {:induction false} Topmost(rows: Rows, p: Path) returns (d: Path)
    requires Hidden(rows, p)
    ensures FullyPinned(rows, d) && Under(d, p) && !Hidden(rows, d)
    decreases |p|
  {
    d :| FullyPinned(rows, d) && Under(d, p);
    if Hidden(rows, d) {
      var e := Topmost(rows, d);
      UnderTransitive(e, d, p);
      d := e;
    }
  }

  /** The pinned files are exactly the files that are shown or lie below a shown fully pinned directory. */
  lemma ShownExactly(rows: Rows, f: Path)
    requires IsFile(rows, f)
    ensures rows[f].pinned <==> Shown(rows, f) || exists d :: Shown(rows, d) && FullyPinned(rows, d) && Under(d, f)
  {
    if rows[f].pinned && Hidden(rows, f) {
      var d := Topmost(rows, f);
      assert Shown(rows, d);
    }
  }

  /** No file shows twice: one shown fully pinned directory stands for it, or it shows itself. */
  lemma ShownOnce(rows: Rows, f: Path, d: Path, e: Path)
    requires Shown(rows, d) && FullyPinned(rows, d) && Under(d, f)
    ensures !Shown(rows, f)
    ensures Shown(rows, e) && FullyPinned(rows, e) && Under(e, f) ==> e == d
  {
    if Under(e, f) {
      UnderComparable(d, e, f);
    }
  }

  /** Nothing else shows: a shown path is pinned itself, or a directory that holds files, all of them pinned. */
  lemma ShownOnly(rows: Rows, p: Path)
    requires Shown(rows, p)
    ensures p in rows
    ensures rows[p].pinned
      || (&& rows[p].isDir && (exists f :: f in rows && !rows[f].isDir && Under(p, f))
          && forall f | f in rows && !rows[f].isDir && Under(p, f) :: rows[f].pinned)
  {
    if FullyPinned(rows, p) {
      var f :| IsFile(rows, f) && Under(p, f);
      forall f | f in rows && !rows[f].isDir && Under(p, f) ensures rows[f].pinned {
        assert IsFile(rows, f);
      }
    }
  }

  /** A pinned directory row is shown even when a file below it is not pinned. A reader who takes every
      shown directory to stand for all of its files is right if and only if each shown pinned directory
      has only pinned files below. */
  lemma ReadAsDirectories(rows: Rows)
    ensures (forall f | IsFile(rows, f) ::
               rows[f].pinned <==> Shown(rows, f) || exists d :: Shown(rows, d) && rows[d].isDir && Under(d, f))
      <==> (forall d, f | IsPinned(rows, d) && rows[d].isDir && !Hidden(rows, d) && IsFile(rows, f)
          && Under(d, f) :: rows[f].pinned)
  {
    forall f | IsFile(rows, f)
      ensures rows[f].pinned ==> Shown(rows, f) || exists d :: Shown(rows, d) && rows[d].isDir && Under(d, f)
    {
      ShownExactly(rows, f);
    }
  }

  const DIRECTORY: Path := ["d"]
  const FILE: Path := ["d", "f"]
  const ROW := Entry(false, 1, 1, 1, Basics.FileState.Clean, Basics.None, false, false, 0)

  /** Such a listing: the directory was pinned, and the file came later. */
  lemma UnpinnedBelowShown()
    ensures var rows := map[DIRECTORY := ROW.(isDir := true, pinned := true), FILE := ROW];
      IsFile(rows, FILE) && !rows[FILE].pinned && Shown(rows, DIRECTORY) && rows[DIRECTORY].isDir
          && Under(DIRECTORY, FILE)
  {
    var rows := map[DIRECTORY := ROW.(isDir := true, pinned := true), FILE := ROW];
    assert FILE[..1] == DIRECTORY;
    forall d | FullyPinned(rows, d) ensures !Under(d, DIRECTORY) {
      assert d == DIRECTORY || d == FILE;
    }
  }

  // ---------- Orders ----------

  predicate LexLe(s: string, t: string) {
    s == "" || (t != "" && (s[0] < t[0] || (s[0] == t[0] && LexLe(s[1..], t[1..]))))
  }

  lemma {:induction false} LexTransitive(s: string, t: string, u: string)
    requires LexLe(s, t) && LexLe(t, u)
    ensures LexLe(s, u)
  {
    if s != "" && s[0] == t[0] == u[0] {
      LexTransitive(s[1..], t[1..], u[1..]);
    }
  }

  lemma {:induction false} LexTotal(s: string, t: string)
    ensures LexLe(s, t) || LexLe(t, s)
  {
    if s != "" && t != "" {
      LexTotal(s[1..], t[1..]);
    }
  }

  predicate ByName(p: Path, q: Path) {
    LexLe(Render(p), Render(q))
  }

  predicate ByLength(p: Path, q: Path) {
    |Render(p)| < |Render(q)| || (|Render(p)| == |Render(q)| && ByName(p, q))
  }

  ghost predicate Ordering(le: (Path, Path) -> bool) {
    && (forall p, q :: le(p, q) || le(q, p))
    && (forall p, q, r | le(p, q) && le(q, r) :: le(p, r))
  }

  lemma NameOrdering()
    ensures Ordering(ByName)
  {
    forall p, q ensures ByName(p, q) || ByName(q, p) {
      LexTotal(Render(p), Render(q));
    }
    forall p, q, r | ByName(p, q) && ByName(q, r) ensures ByName(p, r) {
      LexTransitive(Render(p), Render(q), Render(r));
    }
  }

  lemma LengthOrdering()
    ensures Ordering(ByLength)
  {
    NameOrdering();
  }

  /** A directory's path is shorter than every path below it, so it is met first. */
  lemma {:induction false} ParentShorter(d: Path, p: Path)
    requires d != [] && Clean(p) && Under(d, p)
    ensures |Render(d)| < |Render(p)|
    decreases |d|
  {
    RenderCons(p);
    UnderHead(d, p);
    if |d| > 1 {
      UnderTail(d, p);
      ParentShorter(d[1..], p[1..]);
    }
  }

  ghost predicate SortedBy(le: (Path, Path) -> bool, xs: seq<Path>) {
    forall i, j | 0 <= i < j < |xs| :: le(xs[i], xs[j])
  }

  predicate Distinct(xs: seq<Path>) {
    forall i, j | 0 <= i < j < |xs| :: xs[i] != xs[j]
  }

  method SortPaths(xs: set<Path>, le: (Path, Path) -> bool) returns (ys: seq<Path>)
    requires Ordering(le)
    ensures Distinct(ys) && SortedBy(le, ys)
    ensures forall p :: p in ys <==> p in xs
  {
    ys := [];
    var rest := xs;
    while rest != {}
      invariant rest <= xs && Distinct(ys) && SortedBy(le, ys)
      invariant forall p :: p in ys <==> p in xs && p !in rest
      decreases rest
    {
      var x :| x in rest;
      rest := rest - {x};
      var k := 0;
      while k < |ys| && le(ys[k], x)
        invariant k <= |ys| && forall i | 0 <= i < k :: le(ys[i], x)
      {
        k := k + 1;
      }
      assert k < |ys| ==> le(x, ys[k]);
      assert forall i | k <= i < |ys| :: le(x, ys[i]);
      ys := ys[..k] + [x] + ys[k..];
    }
  }

  // ---------- The algorithm ----------

  /** The rows below `dir`, in some order. */
  method ListDescendants(rows: Rows, dir: Path) returns (desc: seq<Path>)
    ensures forall p :: p in desc <==> p in rows && Under(dir, p)
  {
    desc := [];
    var rest := rows.Keys;
    while rest != {}
      invariant rest <= rows.Keys
      invariant forall p :: p in desc <==> p in rows && p !in rest && Under(dir, p)
      decreases rest
    {
      var p :| p in rest;
      if Under(dir, p) {
        desc := desc + [p];
      }
      rest := rest - {p};
    }
  }

  method HasCollapsedAncestor(path: Path, collapsed: set<Path>) returns (found: bool)
    requires path != [] && [] !in collapsed
    ensures found == exists d :: d in collapsed && Under(d, path)
  {
    var dir := Parent(path);
    while dir != []
      invariant |dir| < |path| && dir == path[..|dir|]
      invariant forall d | d in collapsed && Under(d, path) :: |d| <= |dir|
      decreases |dir|
    {
      if dir in collapsed {
        return true;
      }
      assert Parent(dir) == path[..|dir| - 1];
      dir := Parent(dir);
    }
    found := false;
  }

  /** The directories that could collapse: pinned ones, and all that lie above a pinned path. */
  method SeenDirectories(rows: Rows, pins: set<Path>) returns (seen: set<Path>)
    requires forall p | p in pins :: p in rows && p != []
    ensures forall d :: d in seen <==> (d in pins && rows[d].isDir) || (d != [] && exists p :: p in pins && Under(d, p))
  {
    seen := {};
    var rest := pins;
    while rest != {}
      invariant rest <= pins
      invariant forall d :: d in seen <==>
        (d in pins - rest && rows[d].isDir) || (d != [] && exists p :: p in pins - rest && Under(d, p))
      decreases rest
    {
      var e :| e in rest;
      rest := rest - {e};
      ghost var before := seen;
      if rows[e].isDir {
        seen := seen + {e};
      }
      var above := Ancestors(e);
      seen := seen + above;
      assert pins - rest == (pins - (rest + {e})) + {e};
      assert forall d :: d in seen <==> d in before || (d == e && rows[e].isDir) || (d != [] && Under(d, e));
    }
  }

  method Ancestors(e: Path) returns (above: set<Path>)
    requires e != []
    ensures forall d :: d in above <==> d != [] && Under(d, e)
  {
    above := {};
    var dir := Parent(e);
    while dir != []
      invariant |dir| < |e| && dir == e[..|dir|]
      invariant forall d :: d in above <==> d != [] && Under(d, e) && |d| > |dir|
      decreases |dir|
    {
      above := above + {dir};
      assert Parent(dir) == e[..|dir| - 1];
      dir := Parent(dir);
    }
  }

  method AllFilesPinned(rows: Rows, dir: Path) returns (all: bool)
    requires dir in rows && rows[dir].isDir
    ensures all == FullyPinned(rows, dir)
  {
    var desc := ListDescendants(rows, dir);
    var files := 0;
    ghost var some: Path := [];
    for i := 0 to |desc|
      invariant if files > 0 then some in desc[..i] && IsFile(rows, some)
          else forall f | f in desc[..i] :: !IsFile(rows, f)
      invariant forall f | f in desc[..i] && IsFile(rows, f) :: rows[f].pinned
    {
      assert desc[i] in desc && desc[..i + 1] == desc[..i] + [desc[i]];
      if !rows[desc[i]].isDir {
        files, some := files + 1, desc[i];
        if !rows[desc[i]].pinned {
          return false;
        }
      }
    }
    assert desc[..|desc|] == desc;
    all := files > 0;
  }

  /** The listed directories that are fully pinned, in the order of the list. */
  method KeepFullyPinned(rows: Rows, dirs: seq<Path>, ghost le: (Path, Path) -> bool) returns (out: seq<Path>)
    requires Distinct(dirs) && SortedBy(le, dirs)
    ensures forall d :: d in out <==> d in dirs && FullyPinned(rows, d)
    ensures Distinct(out) && SortedBy(le, out)
  {
    out := [];
    for i := 0 to |dirs|
      invariant forall d :: d in out <==> d in dirs[..i] && FullyPinned(rows, d)
      invariant Distinct(out) && SortedBy(le, out)
    {
      var dir := dirs[i];
      assert dirs[..i + 1] == dirs[..i] + [dir];
      if dir in rows && rows[dir].isDir {
        var all := AllFilesPinned(rows, dir);
        if all {
          forall k | 0 <= k < |out| ensures out[k] != dir && le(out[k], dir) {
            assert out[k] in out;
          }
          out := out + [dir];
        }
      }
    }
    assert dirs[..|dirs|] == dirs;
  }

  ghost predicate AreCandidates(rows: Rows, candidates: seq<Path>) {
    (forall d :: d in candidates <==> FullyPinned(rows, d)) && SortedBy(ByLength, candidates)
  }

  /** The candidates are exactly the fully pinned directories, shorter paths first. */
  method CollapseCandidates(rows: Rows, pins: set<Path>) returns (out: seq<Path>)
    requires RealPaths(rows) && forall p :: p in pins <==> IsPinned(rows, p)
    ensures AreCandidates(rows, out) && Distinct(out)
  {
    LengthOrdering();
    var seen := SeenDirectories(rows, pins);
    var dirs := SortPaths(seen, ByLength);
    out := KeepFullyPinned(rows, dirs, ByLength);
    forall d | FullyPinned(rows, d) ensures d in seen {
      var f :| IsFile(rows, f) && Under(d, f);
      assert f in pins && d != [];
    }
  }

  datatype PinnedOutput = PinnedOutput(path: Path, isDir: bool)

  ghost predicate CoveredBy(collapsed: set<Path>, p: Path) {
    exists d :: d in collapsed && Under(d, p)
  }

  /** The display after some candidates: the pinned and collapsed paths that no collapsed one is above. */
  ghost predicate Displays(rows: Rows, collapsed: set<Path>, display: map<Path, bool>) {
    && (forall p :: p in display <==> (IsPinned(rows, p) || p in collapsed) && !CoveredBy(collapsed, p))
    && (forall p | p in display :: p in rows && display[p] == rows[p].isDir)
  }

  /** A collapsed directory is shown and everything below it goes; no collapsed one is below it, as
      they are shorter. */
  lemma CollapseOne(rows: Rows, collapsed: set<Path>, display: map<Path, bool>, dir: Path)
    requires Displays(rows, collapsed, display) && dir in rows && rows[dir].isDir
    requires forall d | d in collapsed :: !Under(d, dir) && !Under(dir, d)
    ensures Displays(rows, collapsed + {dir}, map p | p in display[dir := true]
        && !Under(dir, p) :: display[dir := true][p])
  {
  }

  lemma NoneRelated(rows: Rows, candidates: seq<Path>, i: nat, collapsed: set<Path>)
    requires RealPaths(rows) && AreCandidates(rows, candidates) && i < |candidates| && !Hidden(rows, candidates[i])
    requires CollapsedSoFar(rows, candidates, i, collapsed)
    ensures forall d | d in collapsed :: !Under(d, candidates[i]) && !Under(candidates[i], d)
  {
  }

  /** The directory takes its place in the display, and what it covers goes. */
  method ShowCollapsed(rows: Rows, ghost collapsed: set<Path>, display: map<Path, bool>, dir: Path)
    returns (shown: map<Path, bool>)
    requires Displays(rows, collapsed, display) && dir in rows && rows[dir].isDir
    requires forall d | d in collapsed :: !Under(d, dir) && !Under(dir, d)
    ensures Displays(rows, collapsed + {dir}, shown)
  {
    CollapseOne(rows, collapsed, display, dir);
    shown := display[dir := true];
    shown := map p | p in shown && !Under(dir, p) :: shown[p];
  }

  /** Of the candidates met so far, those that no other one stands for. */
  ghost predicate CollapsedSoFar(rows: Rows, candidates: seq<Path>, i: nat, collapsed: set<Path>)
    requires i <= |candidates|
  {
    forall d :: d in collapsed <==> d in candidates[..i] && !Hidden(rows, d)
  }

  lemma CollapsedNext(rows: Rows, candidates: seq<Path>, i: nat, collapsed: set<Path>)
    requires AreCandidates(rows, candidates) && i < |candidates| && CollapsedSoFar(rows, candidates, i, collapsed)
    ensures var dir := candidates[i];
      CollapsedSoFar(rows, candidates, i + 1, if Hidden(rows, dir) then collapsed else collapsed + {dir})
  {
  }

  /** The loop over the candidates. */
  method Collapse(rows: Rows, pins: set<Path>, candidates: seq<Path>) returns (display: map<Path, bool>)
    requires RealPaths(rows) && forall p :: p in pins <==> IsPinned(rows, p)
    requires AreCandidates(rows, candidates)
    ensures forall p :: p in display <==> Shown(rows, p)
    ensures forall p | p in display :: p in rows && display[p] == rows[p].isDir
  {
    display := map p | p in pins :: rows[p].isDir;
    var collapsed: set<Path> := {};
    for i := 0 to |candidates|
      invariant CollapsedSoFar(rows, candidates, i, collapsed)
      invariant Displays(rows, collapsed, display)
    {
      var dir := candidates[i];
      CandidateIsReal(rows, candidates, i, collapsed);
      var found := HasCollapsedAncestor(dir, collapsed);
      AncestorsMetBefore(rows, candidates, i, collapsed);
      CollapsedNext(rows, candidates, i, collapsed);
      if !found {
        NoneRelated(rows, candidates, i, collapsed);
        display := ShowCollapsed(rows, collapsed, display, dir);
        collapsed := collapsed + {dir};
      }
    }
    assert candidates[..|candidates|] == candidates;
    forall p ensures p in display <==> Shown(rows, p) {
      DisplayedAtEnd(rows, collapsed, display, p);
    }
  }

  lemma CandidateIsReal(rows: Rows, candidates: seq<Path>, i: nat, collapsed: set<Path>)
    requires RealPaths(rows) && AreCandidates(rows, candidates) && i < |candidates|
    requires CollapsedSoFar(rows, candidates, i, collapsed)
    ensures [] !in collapsed && FullyPinned(rows, candidates[i]) && candidates[i] != []
  {
    assert candidates[i] in candidates;
    assert [] in collapsed ==> [] in candidates;
  }

  /** The display as a list in the order of names. */
  method List(display: map<Path, bool>) returns (out: seq<PinnedOutput>)
    ensures forall e :: e in out <==> e.path in display && e.isDir == display[e.path]
    ensures forall i, j | 0 <= i < j < |out| :: out[i].path != out[j].path && ByName(out[i].path, out[j].path)
  {
    NameOrdering();
    var names := SortPaths(display.Keys, ByName);
    out := [];
    for i := 0 to |names|
      invariant |out| == i
      invariant forall k | 0 <= k < i ::
        out[k].path == names[k] && names[k] in display && out[k].isDir == display[names[k]]
    {
      assert names[i] in names;
      out := out + [PinnedOutput(names[i], display[names[i]])];
    }
    forall e ensures e in out <==> e.path in display && e.isDir == display[e.path] {
      if e.path in display && e.isDir == display[e.path] {
        assert e.path in names;
        var k :| 0 <= k < |names| && names[k] == e.path;
        assert out[k] == e;
      }
    }
  }

  /** The compaction shows exactly the entries it should, each once, in the order of names, and none of
      them below a directory that stands for all of its files. */
  method CompactPinnedEntries(rows: Rows) returns (out: seq<PinnedOutput>)
    requires RealPaths(rows)
    ensures forall e :: e in out <==> Shown(rows, e.path) && e.path in rows && e.isDir == rows[e.path].isDir
    ensures forall i, j | 0 <= i < j < |out| :: out[i].path != out[j].path && ByName(out[i].path, out[j].path)
    ensures forall d, e | d in out && e in out && FullyPinned(rows, d.path) :: !Under(d.path, e.path)
  {
    var pins := set p | p in rows && rows[p].pinned;
    var candidates := CollapseCandidates(rows, pins);
    var display := Collapse(rows, pins, candidates);
    out := List(display);
  }

  lemma AncestorsMetBefore(rows: Rows, candidates: seq<Path>, i: nat, collapsed: set<Path>)
    requires RealPaths(rows) && AreCandidates(rows, candidates) && i < |candidates|
    requires CollapsedSoFar(rows, candidates, i, collapsed)
    ensures (exists d :: d in collapsed && Under(d, candidates[i])) <==> Hidden(rows, candidates[i])
  {
    var dir := candidates[i];
    assert dir in candidates;
    if d :| d in collapsed && Under(d, dir) {
      assert d in candidates;
      assert Hidden(rows, dir);
    }
    if Hidden(rows, dir) {
      var d := Topmost(rows, dir);
      assert d in candidates;
      var k :| 0 <= k < |candidates| && candidates[k] == d;
      ParentShorter(d, dir);
      assert k < i;
      assert d in candidates[..i];
    }
  }

  lemma DisplayedAtEnd(rows: Rows, collapsed: set<Path>, display: map<Path, bool>, p: Path)
    requires forall d :: d in collapsed <==> FullyPinned(rows, d) && !Hidden(rows, d)
    requires Displays(rows, collapsed, display)
    ensures p in display <==> Shown(rows, p)
  {
    if Hidden(rows, p) {
      var d := Topmost(rows, p);
      assert d in collapsed;
    }
  }
}
