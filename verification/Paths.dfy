/** Relative paths as sequences of names, and why that is faithful to the strings of the database. */
module Paths {
  type Path = seq<string>

  /** `p` lies strictly below `dir`. */
  predicate Under(dir: Path, p: Path) {
    |dir| < |p| && p[..|dir|] == dir
  }

  predicate ChildOf(dir: Path, p: Path) {
    |p| == |dir| + 1 && p[..|dir|] == dir
  }

  function Parent(p: Path): Path
    requires p != []
  {
    p[..|p| - 1]
  }

  lemma UnderTransitive(a: Path, b: Path, c: Path)
    requires Under(a, b) && Under(b, c)
    ensures Under(a, c)
  {
  }

  /** Two directories above the same path are the same, or one lies below the other. */
  lemma UnderComparable(a: Path, b: Path, p: Path)
    requires Under(a, p) && Under(b, p)
    ensures a == b || Under(a, b) || Under(b, a)
  {
  }

  // ---------- Strings ----------

  predicate IsName(s: string) {
    s != "" && '/' !in s
  }

  predicate Clean(p: Path) {
    forall i | 0 <= i < |p| :: IsName(p[i])
  }

  /** "a/b/c" */
  function Render(p: Path): string {
    if p == [] then "" else if |p| == 1 then p[0] else p[0] + "/" + Render(p[1..])
  }

  lemma FirstSlash(a: string, b: string, x: string, y: string)
    requires '/' !in a && '/' !in b && a + "/" + x == b + "/" + y
    ensures a == b && x == y
  {
    var s, t := a + "/" + x, b + "/" + y;
    assert s[|a|] == '/' && t[|b|] == '/';
    assert forall i | 0 <= i < |a| :: s[i] == a[i];
    assert forall i | 0 <= i < |b| :: t[i] == b[i];
    assert |a| == |b|;
    assert a == s[..|a|] == t[..|b|] == b;
    assert x == s[|a| + 1..] == t[|b| + 1..] == y;
  }

  lemma {:induction false} RenderCons(p: Path)
    requires p != [] && Clean(p)
    ensures Render(p) != "" && (|p| > 1 ==> Render(p) == p[0] + "/" + Render(p[1..]))
  {
  }

  /** The prefix test on strings, `HasPrefix(p, dir + "/")` or LIKE 'dir/%', is `Under`. */
  lemma {:induction false} PrefixIsUnder(dir: Path, p: Path)
    requires dir != [] && p != [] && Clean(dir) && Clean(p)
    ensures Render(dir) + "/" <= Render(p) <==> Under(dir, p)
    decreases |p|
  {
    RenderCons(dir);
    RenderCons(p);
    assert IsName(dir[0]) && IsName(p[0]);
    if |p| == 1 {
      SlashInside(Render(dir), p[0]);
    } else if |dir| == 1 {
      OneName(dir[0], p);
      assert Under(dir, p) <==> dir[0] == p[0] by {
        assert dir == [dir[0]] && p[..1] == [p[0]];
      }
    } else {
      assert Clean(dir[1..]) && Clean(p[1..]);
      PrefixIsUnder(dir[1..], p[1..]);
      PrefixStep(dir[0], Render(dir[1..]), p[0], Render(p[1..]));
      if dir[0] == p[0] {
        UnderTail(dir, p);
      } else {
        UnderHead(dir, p);
      }
    }
  }

  lemma SlashInside(d: string, name: string)
    ensures d + "/" <= name ==> '/' in name
  {
    var s := d + "/";
    if s <= name {
      assert name[|d|] == s[|d|] == '/';
    }
  }

  lemma UnderHead(dir: Path, p: Path)
    requires dir != []
    ensures Under(dir, p) ==> dir[0] == p[0]
  {
  }

  /** The first names decide, and then the rest. */
  lemma PrefixStep(a: string, d: string, b: string, t: string)
    requires IsName(a) && IsName(b)
    ensures (a + "/" + d) + "/" <= b + "/" + t <==> a == b && d + "/" <= t
  {
    var s := (a + "/" + d) + "/";
    assert s == a + "/" + (d + "/");
    if s <= b + "/" + t {
      var rest := (b + "/" + t)[|s|..];
      assert a + "/" + (d + "/" + rest) == s + rest == b + "/" + t;
      FirstSlash(a, b, d + "/" + rest, t);
    }
    if a == b && d + "/" <= t {
      CutPrefix(a + "/", d + "/", t);
    }
  }

  lemma UnderTail(dir: Path, p: Path)
    requires dir != [] && p != [] && dir[0] == p[0]
    ensures Under(dir, p) <==> Under(dir[1..], p[1..])
  {
  }

  lemma CutPrefix(n: string, d: string, t: string)
    ensures n + d <= n + t <==> d <= t
  {
    if n + d <= n + t {
      assert d == (n + d)[|n|..] == (n + t)[..|n + d|][|n|..];
      assert (n + t)[..|n + d|][|n|..] == t[..|d|];
    }
    if d <= t {
      assert (n + t)[..|n + d|] == n + t[..|d|];
    }
  }

  lemma OneName(name: string, p: Path)
    requires IsName(name) && |p| > 1 && Clean(p)
    ensures name + "/" <= Render(p) <==> name == p[0]
  {
    RenderCons(p);
    assert IsName(p[0]);
    if name + "/" <= Render(p) {
      var rest := Render(p)[|name| + 1..];
      assert name + "/" + rest == p[0] + "/" + Render(p[1..]);
      FirstSlash(name, p[0], rest, Render(p[1..]));
    }
  }
}
