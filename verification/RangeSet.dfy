/** The merging interval set in which a download records the bytes that are on disk.

    `Covers` is the byte-set view. `CanonicalUnique` says that a canonical list is determined by
    its view, so a contract that gives canonicity and view gives the list. */
module Ranges {

  /** The half-open byte range [start, end). */
  datatype Interval = Interval(start: int, end: int) {
    predicate Has(b: int) {
      start <= b < end
    }
  }

  type Intervals = seq<Interval>

  function Min(a: int, b: int): int {
    if a < b then a else b
  }

  function Max(a: int, b: int): int {
    if a < b then b else a
  }

  /** Sorted, non-empty and strictly separated: neighbours do not even touch. */
  ghost predicate Canonical(ivs: Intervals) {
    && (forall i | 0 <= i < |ivs| :: ivs[i].start < ivs[i].end)
    && (forall i, j | 0 <= i < j < |ivs| :: ivs[i].end < ivs[j].start)
  }

  ghost predicate Covers(ivs: Intervals, b: int) {
    exists i :: 0 <= i < |ivs| && ivs[i].Has(b)
  }

  ghost predicate CoversRange(ivs: Intervals, lo: int, hi: int) {
    forall b | lo <= b < hi :: Covers(ivs, b)
  }

  ghost predicate SameBytes(a: Intervals, b: Intervals) {
    forall x :: Covers(a, x) <==> Covers(b, x)
  }

  ghost predicate Included(a: Intervals, b: Intervals) {
    forall x | Covers(a, x) :: Covers(b, x)
  }

  /** [0, total) is covered; an empty file always is. */
  ghost predicate Complete(ivs: Intervals, total: int) {
    CoversRange(ivs, 0, total)
  }

  lemma CoversHead(ivs: Intervals, b: int)
    requires ivs != []
    ensures Covers(ivs, b) <==> ivs[0].Has(b) || Covers(ivs[1..], b)
  {
  }

  lemma CoversConcat(a: Intervals, c: Intervals, b: int)
    ensures Covers(a + c, b) <==> Covers(a, b) || Covers(c, b)
  {
    if i :| 0 <= i < |a| && a[i].Has(b) {
      assert (a + c)[i].Has(b);
    }
    if i :| 0 <= i < |c| && c[i].Has(b) {
      assert (a + c)[|a| + i].Has(b);
    }
    if i :| 0 <= i < |a + c| && (a + c)[i].Has(b) {
      if i < |a| {
        assert a[i].Has(b);
      } else {
        assert c[i - |a|].Has(b);
      }
    }
  }

  /** In a canonical list the byte after the first interval is a hole. */
  lemma HoleAfterHead(ivs: Intervals)
    requires Canonical(ivs) && ivs != []
    ensures Covers(ivs, ivs[0].start) && !Covers(ivs, ivs[0].end)
    ensures forall b | Covers(ivs, b) :: ivs[0].start <= b
  {
  }

  /** A canonical list is determined by the bytes it covers. */
  lemma {:induction false} CanonicalUnique(a: Intervals, b: Intervals)
    requires Canonical(a) && Canonical(b) && SameBytes(a, b)
    ensures a == b
  {
    if a == [] || b == [] {
      if a != [] {
        HoleAfterHead(a);
      }
      if b != [] {
        HoleAfterHead(b);
      }
    } else {
      HoleAfterHead(a);
      HoleAfterHead(b);
      assert a[0].start == b[0].start;
      assert a[0].end == b[0].end by {
        if a[0].end < b[0].end {
          assert b[0].Has(a[0].end);
        } else if b[0].end < a[0].end {
          assert a[0].Has(b[0].end);
        }
      }
      forall x ensures Covers(a[1..], x) <==> Covers(b[1..], x) {
        CoversHead(a, x);
        CoversHead(b, x);
        if a[0].Has(x) {
          assert !Covers(a[1..], x) && !Covers(b[1..], x);
        }
      }
      CanonicalUnique(a[1..], b[1..]);
    }
  }

  // ---------- Add ----------

  /** The list after one interval is merged in; the reference for the loop of `RangeSet.Add`. */
  function Insert(ivs: Intervals, x: Interval): Intervals {
    if ivs == [] then
      [x]
    else if ivs[0].end < x.start then
      [ivs[0]] + Insert(ivs[1..], x)
    else if x.end < ivs[0].start then
      [x] + ivs
    else
      Insert(ivs[1..], Interval(Min(ivs[0].start, x.start), Max(ivs[0].end, x.end)))
  }

  function Added(ivs: Intervals, offset: int, length: int): Intervals {
    if length <= 0 then ivs else Insert(ivs, Interval(offset, offset + length))
  }

  lemma {:induction false} InsertBounds(ivs: Intervals, x: Interval, lo: int)
    requires lo < x.start
    requires forall i | 0 <= i < |ivs| :: lo < ivs[i].start
    ensures forall i | 0 <= i < |Insert(ivs, x)| :: lo < Insert(ivs, x)[i].start
  {
    if ivs != [] {
      if ivs[0].end < x.start {
        InsertBounds(ivs[1..], x, lo);
      } else if ivs[0].start <= x.end {
        InsertBounds(ivs[1..], Interval(Min(ivs[0].start, x.start), Max(ivs[0].end, x.end)), lo);
      }
    }
  }

  lemma {:induction false} InsertCovers(ivs: Intervals, x: Interval, b: int)
    requires Canonical(ivs) && x.start < x.end
    ensures Covers(Insert(ivs, x), b) <==> Covers(ivs, b) || x.Has(b)
  {
    if ivs == [] {
      CoversHead([x], b);
    } else {
      CoversHead(ivs, b);
      if ivs[0].end < x.start {
        InsertCovers(ivs[1..], x, b);
        assert Insert(ivs, x)[1..] == Insert(ivs[1..], x);
        CoversHead(Insert(ivs, x), b);
      } else if x.end < ivs[0].start {
        CoversHead([x] + ivs, b);
        assert ([x] + ivs)[1..] == ivs;
      } else {
        InsertCovers(ivs[1..], Interval(Min(ivs[0].start, x.start), Max(ivs[0].end, x.end)), b);
      }
    }
  }

  lemma {:induction false} InsertCanonical(ivs: Intervals, x: Interval)
    requires Canonical(ivs) && x.start < x.end
    ensures Canonical(Insert(ivs, x))
  {
    if ivs != [] {
      if ivs[0].end < x.start {
        InsertCanonical(ivs[1..], x);
        InsertBounds(ivs[1..], x, ivs[0].end);
      } else if ivs[0].start <= x.end {
        InsertCanonical(ivs[1..], Interval(Min(ivs[0].start, x.start), Max(ivs[0].end, x.end)));
      }
    }
  }

  /** Merging keeps the list canonical and adds exactly the bytes of the new chunk. */
  lemma AddedView(ivs: Intervals, offset: int, length: int)
    requires Canonical(ivs)
    ensures Canonical(Added(ivs, offset, length))
    ensures forall b :: Covers(Added(ivs, offset, length), b) <==> Covers(ivs, b) || offset <= b < offset + length
  {
    if length > 0 {
      var x := Interval(offset, offset + length);
      InsertCanonical(ivs, x);
      forall b ensures Covers(Insert(ivs, x), b) <==> Covers(ivs, b) || x.Has(b) {
        InsertCovers(ivs, x, b);
      }
    }
  }

  // ---------- Confluence ----------

  datatype Piece = Piece(offset: int, length: int)

  function AddAll(ivs: Intervals, pieces: seq<Piece>): Intervals
    decreases |pieces|
  {
    if pieces == [] then ivs
    else AddAll(Added(ivs, pieces[0].offset, pieces[0].length), pieces[1..])
  }

  ghost predicate InPieces(pieces: seq<Piece>, b: int) {
    exists c :: c in pieces && c.offset <= b < c.offset + c.length
  }

  lemma {:induction false} AddAllView(ivs: Intervals, pieces: seq<Piece>)
    requires Canonical(ivs)
    ensures Canonical(AddAll(ivs, pieces))
    ensures forall b :: Covers(AddAll(ivs, pieces), b) <==> Covers(ivs, b) || InPieces(pieces, b)
    decreases |pieces|
  {
    if pieces != [] {
      var c := pieces[0];
      AddedView(ivs, c.offset, c.length);
      AddAllView(Added(ivs, c.offset, c.length), pieces[1..]);
      forall b
        ensures InPieces(pieces, b) <==> c.offset <= b < c.offset + c.length || InPieces(pieces[1..], b)
      {
        if d :| d in pieces && d.offset <= b < d.offset + d.length {
          assert d == c || d in pieces[1..];
        }
      }
    }
  }

  /** Confluence: the interval list depends only on which bytes arrived. Neither the order of the
      pieces, nor how they overlap, nor how often one is added leaves a trace. */
  lemma AddConfluence(ivs: Intervals, one: seq<Piece>, two: seq<Piece>)
    requires Canonical(ivs)
    requires forall b :: InPieces(one, b) <==> InPieces(two, b)
    ensures AddAll(ivs, one) == AddAll(ivs, two)
  {
    AddAllView(ivs, one);
    AddAllView(ivs, two);
    CanonicalUnique(AddAll(ivs, one), AddAll(ivs, two));
  }

  lemma AddOrderIrrelevant(ivs: Intervals, one: seq<Piece>, two: seq<Piece>)
    requires Canonical(ivs) && multiset(one) == multiset(two)
    ensures AddAll(ivs, one) == AddAll(ivs, two)
  {
    forall b ensures InPieces(one, b) <==> InPieces(two, b) {
      if c :| c in one && c.offset <= b < c.offset + c.length {
        assert c in multiset(two);
      }
      if c :| c in two && c.offset <= b < c.offset + c.length {
        assert c in multiset(one);
      }
    }
    AddConfluence(ivs, one, two);
  }

  // ---------- Counting ----------

  ghost function CoveredSet(ivs: Intervals, total: int): set<int> {
    set b | 0 <= b < total && Covers(ivs, b)
  }

  ghost function Span(lo: int, hi: int): set<int> {
    set b | lo <= b < hi && Interval(lo, hi).Has(b)
  }

  lemma {:induction false} SpanSize(lo: int, hi: int)
    requires lo <= hi
    ensures |Span(lo, hi)| == hi - lo
    decreases hi - lo
  {
    if lo < hi {
      SpanSize(lo, hi - 1);
      assert Span(lo, hi) == Span(lo, hi - 1) + {hi - 1};
    } else {
      assert Span(lo, hi) == {};
    }
  }

  function Clamped(iv: Interval, total: int): int {
    Max(0, Min(iv.end, total) - Max(iv.start, 0))
  }

  /** One more interval beyond the others adds its clamped length to the count. */
  lemma CoveredSetSnoc(ivs: Intervals, iv: Interval, total: int)
    requires Canonical(ivs + [iv])
    ensures |CoveredSet(ivs + [iv], total)| == |CoveredSet(ivs, total)| + Clamped(iv, total)
  {
    var lo, hi := Max(iv.start, 0), Min(iv.end, total);
    var own := Span(lo, hi);
    assert own !! CoveredSet(ivs, total) by {
      forall b | b in own ensures !Covers(ivs, b) {
        forall i | 0 <= i < |ivs| ensures !ivs[i].Has(b) {
          assert (ivs + [iv])[i].end < (ivs + [iv])[|ivs|].start;
        }
      }
    }
    forall b ensures b in CoveredSet(ivs + [iv], total) <==> b in CoveredSet(ivs, total) + own {
      CoversConcat(ivs, [iv], b);
      CoversHead([iv], b);
    }
    assert CoveredSet(ivs + [iv], total) == CoveredSet(ivs, total) + own;
    if lo <= hi {
      SpanSize(lo, hi);
    } else {
      assert own == {};
    }
  }

  /** Conservation: if `gaps` covers exactly the missing bytes of [0, total), the counts of the two
      lists add up to the file size. */
  lemma Conservation(ivs: Intervals, gaps: Intervals, total: int)
    requires 0 <= total
    requires forall b :: Covers(gaps, b) <==> 0 <= b < total && !Covers(ivs, b)
    ensures |CoveredSet(ivs, total)| + |CoveredSet(gaps, total)| == total
  {
    SpanSize(0, total);
    assert CoveredSet(ivs, total) !! CoveredSet(gaps, total);
    assert CoveredSet(ivs, total) + CoveredSet(gaps, total) == Span(0, total);
  }

  /** One stream from the first gap to the end of the file makes the set complete, which is why
      `Start` spawns a single sequential goroutine there. */
  lemma FirstGapSuffices(ivs: Intervals, gaps: Intervals, total: int)
    requires Canonical(ivs) && Canonical(gaps)
    requires forall b :: Covers(gaps, b) <==> 0 <= b < total && !Covers(ivs, b)
    ensures gaps == [] <==> Complete(ivs, total)
    ensures gaps != [] ==> Complete(Added(ivs, gaps[0].start, total - gaps[0].start), total)
  {
    if gaps != [] {
      HoleAfterHead(gaps);
      AddedView(ivs, gaps[0].start, total - gaps[0].start);
    } else {
      forall b | 0 <= b < total ensures Covers(ivs, b) {
        assert !Covers(gaps, b);
      }
    }
  }

  // ---------- Serialised form ----------

  function ToPairs(ivs: Intervals): seq<(int, int)> {
    seq(|ivs|, i requires 0 <= i < |ivs| => (ivs[i].start, ivs[i].end))
  }

  function FromPairs(pairs: seq<(int, int)>): Intervals {
    seq(|pairs|, i requires 0 <= i < |pairs| => Interval(pairs[i].0, pairs[i].1))
  }

  lemma PairsRoundTrip(ivs: Intervals, pairs: seq<(int, int)>)
    ensures FromPairs(ToPairs(ivs)) == ivs
    ensures ToPairs(FromPairs(pairs)) == pairs
  {
  }

  // ---------- The object ----------

  /** In the loop of `Add`: the bytes in the new list, and those of the interval still to be placed. */
  ghost predicate Pending(merged: Intervals, newIv: Interval, inserted: bool, b: int) {
    Covers(merged, b) || (!inserted && newIv.Has(b))
  }

  lemma CoversSnoc(ivs: Intervals, iv: Interval, b: int)
    ensures Covers(ivs + [iv], b) <==> Covers(ivs, b) || iv.Has(b)
  {
    CoversConcat(ivs, [iv], b);
    CoversHead([iv], b);
  }

  /** Each branch of the loop takes in exactly the bytes of the next interval. */
  lemma PendingStep(merged: Intervals, newIv: Interval, inserted: bool, iv: Interval, b: int)
    requires newIv.start < newIv.end
    ensures iv.end < newIv.start ==>
      (Pending(merged + [iv], newIv, inserted, b) <==> Pending(merged, newIv, inserted, b) || iv.Has(b))
    ensures newIv.end < iv.start ==>
      (Pending((if inserted then merged else merged + [newIv]) + [iv], newIv, true, b)
       <==> Pending(merged, newIv, inserted, b) || iv.Has(b))
    ensures !inserted && newIv.start <= iv.end && iv.start <= newIv.end && iv.start < iv.end ==>
      (Pending(merged, Interval(Min(iv.start, newIv.start), Max(iv.end, newIv.end)), false, b)
       <==> Pending(merged, newIv, false, b) || iv.Has(b))
  {
    CoversSnoc(merged, iv, b);
    CoversSnoc(merged, newIv, b);
    CoversSnoc(merged + [newIv], iv, b);
  }

  /** What the loop of `Add` keeps: the bytes of the intervals met so far and of the chunk are in `merged`, or
      in the interval still to be inserted. */
  ghost predicate Merging(a: Intervals, k: nat, chunk: Interval, merged: Intervals, newIv: Interval, inserted: bool) {
    && k <= |a| && Canonical(a) && Canonical(merged) && newIv.start < newIv.end
    && (!inserted ==> forall i | 0 <= i < |merged| :: merged[i].end < newIv.start)
    && (forall i, j | 0 <= i < |merged| && k <= j < |a| :: merged[i].end < a[j].start)
    && (inserted ==> newIv in merged)
    && (forall b :: Pending(merged, newIv, inserted, b) <==> Covers(a[..k], b) || chunk.Has(b))
  }

  lemma PendingNext(a: Intervals, k: nat, chunk: Interval, merged: Intervals, newIv: Interval, inserted: bool, b: int)
    requires Merging(a, k, chunk, merged, newIv, inserted) && k < |a|
    ensures Covers(a[..k + 1], b) || chunk.Has(b) <==> Pending(merged, newIv, inserted, b) || a[k].Has(b)
  {
    assert a[..k + 1] == a[..k] + [a[k]];
    CoversSnoc(a[..k], a[k], b);
  }

  lemma MergeBefore(a: Intervals, k: nat, chunk: Interval, merged: Intervals, newIv: Interval, inserted: bool)
    requires Merging(a, k, chunk, merged, newIv, inserted) && k < |a| && a[k].end < newIv.start
    ensures Merging(a, k + 1, chunk, merged + [a[k]], newIv, inserted)
  {
    forall b ensures Pending(merged + [a[k]], newIv, inserted, b) <==> Covers(a[..k + 1], b) || chunk.Has(b) {
      PendingNext(a, k, chunk, merged, newIv, inserted, b);
      PendingStep(merged, newIv, inserted, a[k], b);
    }
  }

  lemma MergeAfter(a: Intervals, k: nat, chunk: Interval, merged: Intervals, newIv: Interval, inserted: bool)
    requires Merging(a, k, chunk, merged, newIv, inserted) && k < |a| && newIv.end < a[k].start
    ensures Merging(a, k + 1, chunk, (if inserted then merged else merged + [newIv]) + [a[k]], newIv, true)
  {
    var more := (if inserted then merged else merged + [newIv]) + [a[k]];
    forall b ensures Pending(more, newIv, true, b) <==> Covers(a[..k + 1], b) || chunk.Has(b) {
      PendingNext(a, k, chunk, merged, newIv, inserted, b);
      PendingStep(merged, newIv, inserted, a[k], b);
    }
    assert !inserted ==> more[|merged|] == newIv;
  }

  lemma MergeInto(a: Intervals, k: nat, chunk: Interval, merged: Intervals, newIv: Interval, inserted: bool)
    requires Merging(a, k, chunk, merged, newIv, inserted) && k < |a|
    requires newIv.start <= a[k].end && a[k].start <= newIv.end
    ensures Merging(a, k + 1, chunk, merged, Interval(Min(a[k].start, newIv.start), Max(a[k].end, newIv.end)), inserted)
  {
    var iv := a[k];
    var wider := Interval(Min(iv.start, newIv.start), Max(iv.end, newIv.end));
    assert !inserted;
    forall b ensures Pending(merged, wider, inserted, b) <==> Covers(a[..k + 1], b) || chunk.Has(b) {
      PendingNext(a, k, chunk, merged, newIv, inserted, b);
      PendingStep(merged, newIv, inserted, iv, b);
    }
  }

  /** One round of the loop. */
  lemma MergeStep(a: Intervals, k: nat, chunk: Interval, merged: Intervals, newIv: Interval, inserted: bool)
    requires Merging(a, k, chunk, merged, newIv, inserted) && k < |a|
    ensures var iv := a[k];
      if iv.end < newIv.start then Merging(a, k + 1, chunk, merged + [iv], newIv, inserted)
      else if iv.start > newIv.end then
        Merging(a, k + 1, chunk, (if inserted then merged else merged + [newIv]) + [iv], newIv, true)
      else
        Merging(a, k + 1, chunk, merged, Interval(Min(iv.start, newIv.start), Max(iv.end, newIv.end)), inserted)
  {
    if a[k].end < newIv.start {
      MergeBefore(a, k, chunk, merged, newIv, inserted);
    } else if a[k].start > newIv.end {
      MergeAfter(a, k, chunk, merged, newIv, inserted);
    } else {
      MergeInto(a, k, chunk, merged, newIv, inserted);
    }
  }

  lemma MergeStart(a: Intervals, chunk: Interval)
    requires Canonical(a) && chunk.start < chunk.end
    ensures Merging(a, 0, chunk, [], chunk, false)
  {
  }

  lemma MergedBytes(a: Intervals, chunk: Interval, merged: Intervals, newIv: Interval, inserted: bool, b: int)
    requires Merging(a, |a|, chunk, merged, newIv, inserted)
    ensures Covers(if inserted then merged else merged + [newIv], b) <==> Covers(a, b) || chunk.Has(b)
  {
    assert a[..|a|] == a;
    CoversSnoc(merged, newIv, b);
  }

  lemma MergedCanonical(a: Intervals, chunk: Interval, merged: Intervals, newIv: Interval, inserted: bool)
    requires Merging(a, |a|, chunk, merged, newIv, inserted)
    ensures Canonical(if inserted then merged else merged + [newIv])
  {
  }

  /** The loop ends with the list of the reference. */
  lemma MergeEnd(a: Intervals, offset: int, length: int, merged: Intervals, newIv: Interval, inserted: bool,
      out: Intervals)
    requires Merging(a, |a|, Interval(offset, offset + length), merged, newIv, inserted) && length > 0
    requires out == if inserted then merged else merged + [newIv]
    ensures out == Added(a, offset, length)
  {
    AddedView(a, offset, length);
    MergedCanonical(a, Interval(offset, offset + length), merged, newIv, inserted);
    forall b ensures Covers(out, b) <==> Covers(Added(a, offset, length), b) {
      MergedBytes(a, Interval(offset, offset + length), merged, newIv, inserted, b);
    }
    CanonicalUnique(out, Added(a, offset, length));
  }

  class RangeSet {
    var intervals: Intervals

    ghost predicate Valid()
      reads this
    {
      Canonical(intervals)
    }

    constructor ()
      ensures Valid() && intervals == []
    {
      intervals := [];
    }

    /** Rebuilds a set from its serialised pairs. The pairs are trusted as they are: the set is
        valid only if they were written from a valid set. */
    constructor Unmarshal(pairs: seq<(int, int)>)
      ensures intervals == FromPairs(pairs)
    {
      intervals := FromPairs(pairs);
    }

    method Marshal() returns (pairs: seq<(int, int)>)
      ensures FromPairs(pairs) == intervals
    {
      pairs := ToPairs(intervals);
      PairsRoundTrip(intervals, []);
    }

    /** Inserts [offset, offset+length) in one pass over the list. */
    method Add(offset: int, length: int)
      requires Valid()
      modifies this
      ensures Valid()
      ensures forall b :: Covers(intervals, b) <==> old(Covers(intervals, b)) || offset <= b < offset + length
      ensures intervals == Added(old(intervals), offset, length)
    {
      if length <= 0 {
        return;
      }
      ghost var a := intervals;
      ghost var chunk := Interval(offset, offset + length);
      var newIv := Interval(offset, offset + length);
      var merged: Intervals := [];
      var inserted := false;
      MergeStart(a, chunk);
      for k := 0 to |intervals|
        invariant intervals == a && Merging(a, k, chunk, merged, newIv, inserted)
      {
        var iv := intervals[k];
        MergeStep(a, k, chunk, merged, newIv, inserted);
        if iv.end < newIv.start {
          merged := merged + [iv];
        } else if iv.start > newIv.end {
          if !inserted {
            merged := merged + [newIv];
            inserted := true;
          }
          merged := merged + [iv];
        } else {
          if iv.start < newIv.start {
            newIv := newIv.(start := iv.start);
          }
          if iv.end > newIv.end {
            newIv := newIv.(end := iv.end);
          }
        }
      }
      ghost var before := merged;
      if !inserted {
        merged := merged + [newIv];
      }
      MergeEnd(a, offset, length, before, newIv, inserted, merged);
      intervals := merged;
      AddedView(a, offset, length);
    }

    /** Whether every byte of [offset, offset+length) is present, by binary search for the first
        interval that ends after `offset`. */
    method Contains(offset: int, length: int) returns (r: bool)
      requires Valid()
      ensures r <==> CoversRange(intervals, offset, offset + length)
    {
      if length <= 0 {
        return true;
      }
      var lo, hi := 0, |intervals|;
      while lo < hi
        invariant 0 <= lo <= hi <= |intervals|
        invariant forall i | 0 <= i < lo :: intervals[i].end <= offset
        invariant forall i | hi <= i < |intervals| :: offset < intervals[i].end
      {
        var mid := (lo + hi) / 2;
        if intervals[mid].end > offset {
          hi := mid;
        } else {
          lo := mid + 1;
        }
      }
      if lo >= |intervals| {
        assert !Covers(intervals, offset);
        return false;
      }
      var iv := intervals[lo];
      r := iv.start <= offset && iv.end >= offset + length;
      if r {
        forall b | offset <= b < offset + length ensures Covers(intervals, b) {
          assert intervals[lo].Has(b);
        }
      } else if iv.start > offset {
        assert !Covers(intervals, offset);
      } else {
        assert !Covers(intervals, iv.end);
      }
    }

    method IsComplete(total: int) returns (r: bool)
      requires Valid()
      ensures r <==> Complete(intervals, total)
    {
      if total <= 0 {
        return true;
      }
      r := Contains(0, total);
    }

    /** The canonical complement in [0, total). */
    method Gaps(total: int) returns (gaps: Intervals)
      requires Valid()
      ensures Canonical(gaps)
      ensures forall b :: Covers(gaps, b) <==> 0 <= b < total && !Covers(intervals, b)
    {
      gaps := [];
      if total <= 0 {
        return;
      }
      var pos := 0;
      var k := 0;
      while k < |intervals| && intervals[k].start < total
        invariant 0 <= k <= |intervals| && 0 <= pos
        invariant Canonical(gaps)
        invariant forall i | 0 <= i < |gaps| :: gaps[i].end < pos
        invariant forall i | k <= i < |intervals| :: 0 < k ==> pos < intervals[i].start || pos == 0
        invariant k > 0 ==> pos == Max(0, intervals[k - 1].end)
        invariant k == 0 ==> pos == 0
        invariant forall b | b < pos :: Covers(gaps, b) <==> 0 <= b < total && !Covers(intervals, b)
      {
        var iv := intervals[k];
        ghost var g0, p0 := gaps, pos;
        if iv.start > pos {
          gaps := gaps + [Interval(pos, Min(iv.start, total))];
        }
        if iv.end > pos {
          pos := iv.end;
        }
        forall b | b < pos ensures Covers(gaps, b) <==> 0 <= b < total && !Covers(intervals, b) {
          CoversConcat(g0, [Interval(p0, Min(iv.start, total))], b);
          CoversHead([Interval(p0, Min(iv.start, total))], b);
          if iv.Has(b) {
            assert intervals[k].Has(b);
          } else if p0 <= b {
            assert !Covers(intervals, b);
          }
        }
        k := k + 1;
      }
      ghost var g1 := gaps;
      if pos < total {
        gaps := gaps + [Interval(pos, total)];
      }
      forall b ensures Covers(gaps, b) <==> 0 <= b < total && !Covers(intervals, b) {
        CoversConcat(g1, [Interval(pos, total)], b);
        CoversHead([Interval(pos, total)], b);
        if pos <= b < total {
          assert !Covers(intervals, b);
        }
      }
    }
  }

  /** The progress figure: how many bytes of [0, total) the list covers. */
  method CoveredBytes(ivs: Intervals, total: int) returns (n: int)
    requires Canonical(ivs)
    ensures total > 0 ==> n == |CoveredSet(ivs, total)|
    ensures total <= 0 ==> n == 0
  {
    if total <= 0 {
      return 0;
    }
    n := 0;
    assert CoveredSet(ivs[..0], total) == {};
    for k := 0 to |ivs|
      invariant n == |CoveredSet(ivs[..k], total)|
    {
      var start, end := Max(ivs[k].start, 0), Min(ivs[k].end, total);
      assert ivs[..k + 1] == ivs[..k] + [ivs[k]];
      CoveredSetSnoc(ivs[..k], ivs[k], total);
      if end > start {
        n := n + (end - start);
      }
    }
    assert ivs[..|ivs|] == ivs;
    SpanSize(0, total);
    assert CoveredSet(ivs, total) <= Span(0, total);
    SubsetSize(CoveredSet(ivs, total), Span(0, total));
    if n > total {
      n := total;
    }
  }

  lemma {:induction false} SubsetSize(a: set<int>, b: set<int>)
    requires a <= b
    ensures |a| <= |b|
  {
    assert b == a + (b - a);
  }
}
