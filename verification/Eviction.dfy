/** The LRU evictor: what it may take, the shortest prefix it takes, and when its byte counter is right. */
module Eviction {
  import opened Basics
  import opened Paths
  import opened Sync
  import opened SyncObjects
  import SyncCycle

  /** The WHERE clause of `ListEvictable`. */
  predicate Evictable(e: Entry) {
    (e.ranges.Some? || e.state.Downloading? || e.state.Clean?) && !e.pinned && !e.isDir
  }

  predicate Candidate(c: Cache, p: Path) {
    p in c.rows && Evictable(c.rows[p])
  }

  function MarkedEvicted(e: Entry): Entry {
    e.(state := Evicted, ranges := None, syncError := false)
  }

  /** The cache without the files of `gone`, their rows marked evicted. */
  ghost function EvictSet(c: Cache, gone: set<Path>): Cache {
    c.(rows := map p | p in c.rows :: if p in gone then MarkedEvicted(c.rows[p])
        else c.rows[p], files := c.files - gone)
  }

  // ---------- Bytes ----------

  ghost function Usage(files: map<Path, seq<Byte>>): nat
    decreases |files|
  {
    if files == map[] then 0
    else
      var p :| p in files;
      assert |files - {p}| < |files| by { FewerFiles(files, p); }
      |files[p]| + Usage(files - {p})
  }

  lemma FewerFiles(files: map<Path, seq<Byte>>, p: Path)
    requires p in files
    ensures |files - {p}| < |files|
  {
  }

  lemma {:induction false} UsageSplit(files: map<Path, seq<Byte>>, p: Path)
    requires p in files
    ensures Usage(files) == |files[p]| + Usage(files - {p})
    decreases |files|
  {
    var q :| q in files && Usage(files) == |files[q]| + Usage(files - {q});
    if q != p {
      FewerFiles(files, q);
      UsageSplit(files - {q}, p);
      FewerFiles(files, p);
      UsageSplit(files - {p}, q);
      assert files - {q} - {p} == files - {p} - {q};
    }
  }

  function DiskSize(c: Cache, p: Path): nat {
    if p in c.files then |c.files[p]| else 0
  }

  lemma UsageWithout(c: Cache, p: Path)
    ensures Usage(c.files - {p}) == Usage(c.files) - DiskSize(c, p)
  {
    if p in c.files {
      UsageSplit(c.files, p);
    } else {
      assert c.files - {p} == c.files;
    }
  }

  /** The candidates, least recently accessed first. */
  ghost predicate LruListing(c: Cache, listed: seq<Path>) {
    && (forall p :: p in listed <==> Candidate(c, p))
    && (forall i | 0 <= i < |listed| :: Candidate(c, listed[i]))
    && (forall i, j | 0 <= i < j < |listed| :: listed[i] != listed[j])
    && (forall i, j | 0 <= i < j < |listed| :: c.rows[listed[i]].lastAccess <= c.rows[listed[j]].lastAccess)
  }

  ghost function First(listed: seq<Path>, k: nat): set<Path>
    requires k <= |listed|
  {
    set i | 0 <= i < k :: listed[i]
  }

  /** The sizes that the rows of the first `k` candidates claim. */
  ghost function Freed(c: Cache, listed: seq<Path>, k: nat): nat
    requires k <= |listed| && forall p | p in listed :: p in c.rows
  {
    if k == 0 then 0 else Freed(c, listed, k - 1) + c.rows[listed[k - 1]].size
  }

  /** The pass took the shortest prefix of the listing that frees `need` bytes by the rows' sizes. */
  ghost predicate ShortestPrefix(c: Cache, d: Cache, need: int, listed: seq<Path>, k: nat) {
    && LruListing(c, listed) && k <= |listed|
    && d == EvictSet(c, First(listed, k))
    && (Freed(c, listed, k) >= need || k == |listed|)
    && (forall j | 0 <= j < k :: Freed(c, listed, j) < need)
  }

  /** The pass has evicted the first `k` candidates, freed `freed` bytes by their sizes, and needed them all. */
  ghost predicate OnTheWay(c: Cache, d: Cache, need: int, listed: seq<Path>, k: nat, freed: int) {
    && LruListing(c, listed) && k <= |listed| && d == EvictSet(c, First(listed, k)) && freed == Freed(c, listed, k)
    && (forall j | 0 <= j < k :: Freed(c, listed, j) < need)
  }

  ghost predicate LruPass(c: Cache, d: Cache, need: int) {
    exists listed: seq<Path>, k: nat :: ShortestPrefix(c, d, need, listed, k)
  }

  /** The caches in the middle of a pass. */
  ghost function Underway(c: Cache, need: int, listed: seq<Path>, k: nat, freed: int): iset<Cache> {
    iset d | OnTheWay(c, d, need, listed, k, freed)
  }

  lemma PassEnds(c: Cache, d: Cache, need: int, listed: seq<Path>, k: nat, freed: int)
    requires d in Underway(c, need, listed, k, freed) && k <= |listed| && (freed >= need || k == |listed|)
    ensures LruPass(c, d, need)
  {
    assert ShortestPrefix(c, d, need, listed, k);
  }

  ghost function AgePass(c: Cache, cutoff: int): Cache {
    EvictSet(c, set p | p in c.rows && Evictable(c.rows[p]) && c.rows[p].lastAccess <= cutoff)
  }

  lemma EvictOneMore(c: Cache, gone: set<Path>, p: Path)
    requires p in c.rows && p !in gone
    ensures var d := EvictSet(c, gone);
      EvictSet(c, gone + {p}) == d.(rows := d.rows[p := MarkedEvicted(d.rows[p])], files := d.files - {p})
  {
  }

  // ---------- The evictor ----------

  /** A limit of 0 switches its pass off. */
  datatype Limits = Limits(maxSize: nat, maxAge: nat, minFreeSpace: nat)

  class Evictor {
    const maxSize: nat
    const maxAge: nat
    const minFreeSpace: nat

    constructor (maxSize: nat, maxAge: nat, minFreeSpace: nat)
      ensures this.maxSize == maxSize && this.maxAge == maxAge && this.minFreeSpace == minFreeSpace
    {
      this.maxSize, this.maxAge, this.minFreeSpace := maxSize, maxAge, minFreeSpace;
    }

    /** Removing a file that is already missing is no error. */
    static method EvictEntry(store: Store, p: Path)
      requires p in store.rows
      modifies store
      ensures store.files == old(store.files) - {p} && store.conflicts == old(store.conflicts)
      ensures store.rows == old(store.rows)[p := MarkedEvicted(old(store.rows)[p])]
    {
      store.files := store.files - {p};
      store.rows := store.rows[p := store.rows[p].(state := Evicted, ranges := None, syncError := false)];
    }

    static method ListEvictable(store: Store) returns (listed: seq<Path>)
      ensures LruListing(store.Value(), listed)
    {
      listed := [];
      var rest := store.rows.Keys;
      while rest != {}
        invariant rest <= store.rows.Keys
        invariant forall p :: p in listed <==> p !in rest && Candidate(store.Value(), p)
        invariant forall i, j | 0 <= i < j < |listed| :: listed[i] != listed[j]
        invariant forall i, j | 0 <= i < j < |listed| ::
          store.rows[listed[i]].lastAccess <= store.rows[listed[j]].lastAccess
        decreases rest
      {
        var p :| p in rest;
        rest := rest - {p};
        if (store.rows[p].ranges.Some? || store.rows[p].state.Downloading? || store.rows[p].state.Clean?)
          && !store.rows[p].pinned && !store.rows[p].isDir {
          listed := InsertByAccess(store, listed, p);
        }
      }
    }

    static method InsertByAccess(store: Store, listed: seq<Path>, p: Path) returns (longer: seq<Path>)
      requires p in store.rows && p !in listed && forall q | q in listed :: q in store.rows
      requires forall i, j | 0 <= i < j < |listed| :: listed[i] != listed[j]
      requires forall i, j | 0 <= i < j < |listed| ::
          store.rows[listed[i]].lastAccess <= store.rows[listed[j]].lastAccess
      ensures forall q :: q in longer <==> q in listed || q == p
      ensures forall i, j | 0 <= i < j < |longer| :: longer[i] != longer[j]
      ensures forall i, j | 0 <= i < j < |longer| ::
          store.rows[longer[i]].lastAccess <= store.rows[longer[j]].lastAccess
    {
      var k := 0;
      while k < |listed| && store.rows[listed[k]].lastAccess <= store.rows[p].lastAccess
        invariant k <= |listed| && forall i | 0 <= i < k :: store.rows[listed[i]].lastAccess <= store.rows[p].lastAccess
      {
        k := k + 1;
      }
      longer := listed[..k] + [p] + listed[k..];
    }

    method EvictByAge(store: Store, now: int)
      modifies store
      ensures store.Value() == AgePass(old(store.Value()), now - maxAge)
    {
      var listed := ListEvictable(store);
      var before := store.rows;
      ghost var c := store.Value();
      ghost var gone: set<Path> := {};
      for i := 0 to |listed|
        invariant gone == (set k | 0 <= k < i && before[listed[k]].lastAccess <= now - maxAge :: listed[k])
        invariant store.Value() == EvictSet(c, gone)
      {
        if before[listed[i]].lastAccess <= now - maxAge {
          gone := gone + {listed[i]};
          EvictEntry(store, listed[i]);
        }
      }
      forall p | Candidate(c, p) && c.rows[p].lastAccess <= now - maxAge ensures p in gone {
        assert p in listed;
      }
      assert gone == (set p | p in c.rows && Evictable(c.rows[p]) && c.rows[p].lastAccess <= now - maxAge);
    }

    /** The next candidate of the listing, whose row and file are still as listed. */
    static method EvictNext(store: Store, ghost c: Cache, ghost need: int, listed: seq<Path>, i: nat, ghost total: int)
      returns (freed: nat)
      requires store.Value() in Underway(c, need, listed, i, total) && i < |listed| && total < need
      modifies store
      ensures store.Value() in Underway(c, need, listed, i + 1, total + freed)
    {
      freed := store.rows[listed[i]].size;
      EvictEntry(store, listed[i]);
      EvictOneMore(c, First(listed, i), listed[i]);
      assert First(listed, i + 1) == First(listed, i) + {listed[i]};
    }

    static method Begin(store: Store, ghost need: int) returns (listed: seq<Path>)
      ensures store.Value() in Underway(store.Value(), need, listed, 0, 0)
    {
      listed := ListEvictable(store);
      EvictNone(store.Value());
    }

    /** `used` is what walking the cache directory has found. */
    method EvictBySize(store: Store, used: int)
      modifies store
      ensures LruPass(old(store.Value()), store.Value(), used - maxSize)
    {
      ghost var c, need, total := store.Value(), used - maxSize, 0;
      var listed := Begin(store, need);
      var left, i := used, 0;
      while i < |listed| && left > maxSize
        invariant i <= |listed| && left == used - total && store.Value() in Underway(c, need, listed, i, total)
      {
        var freed := EvictNext(store, c, need, listed, i, total);
        total := total + freed;
        left := left - freed;
        i := i + 1;
      }
      PassEnds(c, store.Value(), need, listed, i, total);
    }

    /** `avail` is what the file system has reported. */
    method EvictByFreeSpace(store: Store, avail: int)
      modifies store
      ensures LruPass(old(store.Value()), store.Value(), minFreeSpace - avail)
    {
      ghost var c, need, total := store.Value(), minFreeSpace - avail, 0;
      var listed := Begin(store, need);
      var free, i := avail, 0;
      while i < |listed| && free < minFreeSpace
        invariant i <= |listed| && free == avail + total && store.Value() in Underway(c, need, listed, i, total)
      {
        var freed := EvictNext(store, c, need, listed, i, total);
        total := total + freed;
        free := free + freed;
        i := i + 1;
      }
      PassEnds(c, store.Value(), need, listed, i, total);
    }

    /** One check: by age, then by free space, then by size of what is left. `avail` is what the file system
        reports after the age pass. */
    method Check(store: Store, now: int, avail: int)
      modifies store
      ensures Checked(Limits(maxSize, maxAge, minFreeSpace), now, avail, old(store.Value()), store.Value())
    {
      if maxAge > 0 {
        EvictByAge(store, now);
      }
      ghost var aged := store.Value();
      if minFreeSpace > 0 {
        EvictByFreeSpace(store, avail);
      }
      ghost var spaced := store.Value();
      assert Spaced(minFreeSpace, avail, aged, spaced);
      if maxSize > 0 {
        var used := DirSize(store);
        EvictBySize(store, used);
      }
      assert Sized(maxSize, spaced, store.Value());
    }

    static method DirSize(store: Store) returns (used: nat)
      ensures used == Usage(store.files)
    {
      used := 0;
      var rest := store.files;
      while rest != map[]
        invariant used + Usage(rest) == Usage(store.files)
        decreases |rest|
      {
        var p :| p in rest;
        UsageSplit(rest, p);
        FewerFiles(rest, p);
        used := used + |rest[p]|;
        rest := rest - {p};
      }
    }
  }

  // ---------- What the passes guarantee ----------

  /** Exactly the rows of files that are not pinned and are clean, downloading or name ranges are listed. */
  lemma ListedExactly(c: Cache, listed: seq<Path>, p: Path)
    requires LruListing(c, listed) && p in c.rows
    ensures var e := c.rows[p];
      p in listed <==> !e.isDir && !e.pinned && (e.state.Clean? || e.state.Downloading? || e.ranges.Some?)
  {
  }

  /** Rows that are no candidates keep their row and file. */
  lemma OthersUntouched(c: Cache, d: Cache, need: int, p: Path)
    requires LruPass(c, d, need) && !Candidate(c, p)
    ensures At(d, p) == At(c, p)
  {
  }

  /** The candidates' rows name the bytes that their files have on disk. */
  ghost predicate SizesMatch(c: Cache) {
    forall p | Candidate(c, p) :: c.rows[p].size == DiskSize(c, p)
  }

  ghost predicate CounterRight(c: Cache, listed: seq<Path>, j: nat)
    requires j <= |listed| && forall p | p in listed :: p in c.rows
  {
    Usage(EvictSet(c, First(listed, j)).files) == Usage(c.files) - Freed(c, listed, j)
  }

  lemma CounterStep(c: Cache, listed: seq<Path>, j: nat)
    requires LruListing(c, listed) && j < |listed| && CounterRight(c, listed, j)
    ensures CounterRight(c, listed, j + 1) <==> NamesItsBytes(c, listed[j])
  {
    var d := EvictSet(c, First(listed, j));
    assert First(listed, j + 1) == First(listed, j) + {listed[j]};
    assert EvictSet(c, First(listed, j + 1)).files == d.files - {listed[j]};
    assert listed[j] in listed && listed[j] !in First(listed, j);
    UsageWithout(d, listed[j]);
  }

  ghost predicate CounterAlwaysRight(c: Cache, listed: seq<Path>, k: nat)
    requires k <= |listed| && forall p | p in listed :: p in c.rows
  {
    forall j | 0 <= j <= k :: CounterRight(c, listed, j)
  }

  ghost predicate NamesItsBytes(c: Cache, p: Path)
    requires p in c.rows
  {
    c.rows[p].size == DiskSize(c, p)
  }

  /** The counter of the size pass equals the real usage after every eviction if and only if every evicted row
      names the bytes its file had. */
  lemma {:induction false} CounterExact(c: Cache, listed: seq<Path>, k: nat)
    requires LruListing(c, listed) && k <= |listed|
    ensures CounterAlwaysRight(c, listed, k) <==> forall i | 0 <= i < k :: NamesItsBytes(c, listed[i])
  {
    if k == 0 {
      assert c.files - First(listed, 0) == c.files;
    } else {
      CounterExact(c, listed, k - 1);
      if CounterAlwaysRight(c, listed, k - 1) {
        CounterStep(c, listed, k - 1);
      }
    }
  }

  lemma PrefixUsage(c: Cache, listed: seq<Path>, j: nat)
    requires LruListing(c, listed) && j <= |listed| && SizesMatch(c)
    ensures CounterRight(c, listed, j)
  {
    forall i | 0 <= i < j ensures NamesItsBytes(c, listed[i]) {
      assert listed[i] in listed;
    }
    CounterExact(c, listed, j);
  }

  /** A pass frees what is needed, in real bytes, unless nothing is left to take. */
  lemma PassBound(c: Cache, d: Cache, need: int)
    requires LruPass(c, d, need) && SizesMatch(c)
    ensures Usage(d.files) <= Usage(c.files)
    ensures Usage(d.files) <= Usage(c.files) - need || forall p :: !Candidate(d, p)
  {
    var listed, k: nat :| ShortestPrefix(c, d, need, listed, k);
    PrefixUsage(c, listed, k);
    if k == |listed| {
      forall p ensures !Candidate(d, p) {
        assert Candidate(c, p) ==> p in listed;
      }
    }
  }

  lemma SizeNeeded(c: Cache, d: Cache, maxSize: nat, listed: seq<Path>, k: nat)
    requires ShortestPrefix(c, d, Usage(c.files) - maxSize, listed, k) && SizesMatch(c) && k > 0
    ensures var p := listed[k - 1];
      Candidate(c, p) && !Candidate(d, p) && Usage(d.files) + DiskSize(c, p) > maxSize
  {
    PrefixUsage(c, listed, k);
    PrefixUsage(c, listed, k - 1);
    var p := listed[k - 1];
    assert p in First(listed, k);
  }

  /** The size pass brings the real usage to the limit unless nothing is left to take, and with one eviction
      less it would not have. */
  lemma SizeBound(c: Cache, d: Cache, maxSize: nat)
    requires LruPass(c, d, Usage(c.files) - maxSize) && SizesMatch(c)
    ensures Usage(d.files) <= maxSize || forall p :: !Candidate(d, p)
    ensures d != c ==> exists p :: Candidate(c, p) && !Candidate(d, p) && Usage(d.files) + DiskSize(c, p) > maxSize
  {
    var listed, k: nat :| ShortestPrefix(c, d, Usage(c.files) - maxSize, listed, k);
    PassBound(c, d, Usage(c.files) - maxSize);
    if k == 0 {
      assert d.rows == c.rows && d.files == c.files;
    } else {
      SizeNeeded(c, d, maxSize, listed, k);
    }
  }

  /** Least recently used first: whatever goes was accessed no later than every candidate that stays. */
  lemma LruOrder(c: Cache, d: Cache, need: int, gone: Path, kept: Path)
    requires LruPass(c, d, need) && Candidate(c, gone) && !Candidate(d, gone) && Candidate(d, kept)
    ensures Candidate(c, kept) && c.rows[gone].lastAccess <= c.rows[kept].lastAccess
  {
    var listed, k: nat :| ShortestPrefix(c, d, need, listed, k);
    assert gone in First(listed, k) && kept !in First(listed, k);
    assert kept in listed;
    var i :| 0 <= i < k && listed[i] == gone;
    var j :| 0 <= j < |listed| && listed[j] == kept;
    assert j >= k;
  }

  /** One check with a fixed clock. */
  ghost predicate Checked(limits: Limits, now: int, avail: int, c: Cache, d: Cache) {
    exists b :: Spaced(limits.minFreeSpace, avail, Aged(limits.maxAge, now, c), b) && Sized(limits.maxSize, b, d)
  }

  ghost function Aged(maxAge: nat, now: int, c: Cache): Cache {
    if maxAge > 0 then AgePass(c, now - maxAge) else c
  }

  ghost predicate Spaced(minFreeSpace: nat, avail: int, c: Cache, d: Cache) {
    if minFreeSpace > 0 then LruPass(c, d, minFreeSpace - avail) else d == c
  }

  ghost predicate Sized(maxSize: nat, c: Cache, d: Cache) {
    if maxSize > 0 then LruPass(c, d, Usage(c.files) - maxSize) else d == c
  }

  lemma EvictSetMatches(c: Cache, gone: set<Path>)
    requires SizesMatch(c)
    ensures SizesMatch(EvictSet(c, gone))
  {
  }

  lemma AgeQuiet(c: Cache, gone: set<Path>, cutoff: int)
    ensures var d := EvictSet(AgePass(c, cutoff), gone); AgePass(d, cutoff) == d
  {
  }

  lemma NothingNeeded(c: Cache, d: Cache, need: int)
    requires LruPass(c, d, need) && (need <= 0 || forall p :: !Candidate(c, p))
    ensures d == c
  {
    var listed, k: nat :| ShortestPrefix(c, d, need, listed, k);
    assert k > 0 ==> Freed(c, listed, 0) < need;
    assert listed != [] ==> Candidate(c, listed[0]);
    assert k == 0;
    assert d.rows == c.rows && d.files == c.files;
  }

  lemma EvictNone(c: Cache)
    ensures EvictSet(c, {}) == c
  {
  }

  lemma CandidateBefore(c: Cache, gone: set<Path>, p: Path)
    requires Candidate(EvictSet(c, gone), p)
    ensures Candidate(c, p)
  {
  }

  lemma EvictTwice(c: Cache, gone: set<Path>, more: set<Path>)
    ensures EvictSet(EvictSet(c, gone), more) == EvictSet(c, gone + more)
  {
  }

  lemma PassSet(c: Cache, d: Cache, need: int) returns (gone: set<Path>)
    requires LruPass(c, d, need)
    ensures d == EvictSet(c, gone) && forall p | p in gone :: Candidate(c, p)
  {
    var listed, k: nat :| ShortestPrefix(c, d, need, listed, k);
    gone := First(listed, k);
  }

  lemma SpacedSet(minFreeSpace: nat, avail: int, c: Cache, d: Cache) returns (gone: set<Path>)
    requires Spaced(minFreeSpace, avail, c, d)
    ensures d == EvictSet(c, gone) && forall p | p in gone :: Candidate(c, p)
  {
    if minFreeSpace > 0 {
      gone := PassSet(c, d, minFreeSpace - avail);
    } else {
      EvictNone(c);
      gone := {};
    }
  }

  lemma SizedSet(maxSize: nat, c: Cache, d: Cache) returns (gone: set<Path>)
    requires Sized(maxSize, c, d)
    ensures d == EvictSet(c, gone) && forall p | p in gone :: Candidate(c, p)
  {
    if maxSize > 0 {
      gone := PassSet(c, d, Usage(c.files) - maxSize);
    } else {
      EvictNone(c);
      gone := {};
    }
  }

  lemma NoneAppears(maxSize: nat, c: Cache, d: Cache)
    requires Sized(maxSize, c, d)
    ensures forall p | Candidate(d, p) :: Candidate(c, p)
  {
    var gone := SizedSet(maxSize, c, d);
    forall p | Candidate(d, p) ensures Candidate(c, p) {
      CandidateBefore(c, gone, p);
    }
  }

  lemma SizeQuiet(c: Cache, d: Cache, e: Cache, maxSize: nat)
    requires SizesMatch(c) && Sized(maxSize, c, d) && Sized(maxSize, d, e)
    ensures e == d
  {
    if maxSize > 0 {
      SizeBound(c, d, maxSize);
      NothingNeeded(d, e, Usage(d.files) - maxSize);
    }
  }

  /** The free-space pass has nothing to do once the file system has all the freed bytes back. */
  lemma SpaceQuiet(minFreeSpace: nat, maxSize: nat, avail: int, again: int, c: Cache, b: Cache, d: Cache, e: Cache)
    requires SizesMatch(c) && SizesMatch(b) && Spaced(minFreeSpace, avail, c, b) && Sized(maxSize, b, d)
    requires Spaced(minFreeSpace, again, d, e)
    requires minFreeSpace > 0 ==> again >= avail + Usage(c.files) - Usage(d.files)
    ensures e == d
  {
    if minFreeSpace > 0 {
      PassBound(c, b, minFreeSpace - avail);
      if maxSize > 0 {
        PassBound(b, d, Usage(b.files) - maxSize);
      }
      assert minFreeSpace - again <= 0 || forall p :: !Candidate(d, p) by {
        NoneAppears(maxSize, b, d);
      }
      NothingNeeded(d, e, minFreeSpace - again);
    }
  }

  lemma AgedMatches(maxAge: nat, now: int, c: Cache)
    requires SizesMatch(c)
    ensures SizesMatch(Aged(maxAge, now, c))
  {
    EvictSetMatches(c, set p | p in c.rows && Evictable(c.rows[p]) && c.rows[p].lastAccess <= now - maxAge);
  }

  lemma SpacedMatches(minFreeSpace: nat, avail: int, c: Cache, d: Cache)
    requires SizesMatch(c) && Spaced(minFreeSpace, avail, c, d)
    ensures SizesMatch(d)
  {
    var gone := SpacedSet(minFreeSpace, avail, c, d);
    EvictSetMatches(c, gone);
  }

  lemma AgedAgain(limits: Limits, now: int, avail: int, c: Cache, b: Cache, d: Cache)
    requires Spaced(limits.minFreeSpace, avail, Aged(limits.maxAge, now, c), b) && Sized(limits.maxSize, b, d)
    ensures Aged(limits.maxAge, now, d) == d
  {
    if limits.maxAge > 0 {
      var spaced := SpacedSet(limits.minFreeSpace, avail, Aged(limits.maxAge, now, c), b);
      var sized := SizedSet(limits.maxSize, b, d);
      EvictTwice(Aged(limits.maxAge, now, c), spaced, sized);
      AgeQuiet(c, spaced + sized, now - limits.maxAge);
    }
  }

  lemma AgedSet(maxAge: nat, now: int, c: Cache) returns (gone: set<Path>)
    ensures Aged(maxAge, now, c) == EvictSet(c, gone) && forall p | p in gone :: Candidate(c, p)
  {
    if maxAge > 0 {
      gone := set p | p in c.rows && Evictable(c.rows[p]) && c.rows[p].lastAccess <= now - maxAge;
    } else {
      EvictNone(c);
      gone := {};
    }
  }

  lemma MoreCandidates(c: Cache, gone: set<Path>, more: set<Path>)
    requires forall p | p in gone :: Candidate(c, p)
    requires forall p | p in more :: Candidate(EvictSet(c, gone), p)
    ensures forall p | p in gone + more :: Candidate(c, p)
    ensures EvictSet(EvictSet(c, gone), more) == EvictSet(c, gone + more)
  {
    EvictTwice(c, gone, more);
    forall p | p in more ensures Candidate(c, p) {
      CandidateBefore(c, gone, p);
    }
  }

  /** A check evicts some of the candidates, as they were before it. */
  lemma CheckedSet(limits: Limits, now: int, avail: int, c: Cache, d: Cache) returns (gone: set<Path>)
    requires Checked(limits, now, avail, c, d)
    ensures d == EvictSet(c, gone) && forall p | p in gone :: Candidate(c, p)
  {
    var aged := Aged(limits.maxAge, now, c);
    var b :| Spaced(limits.minFreeSpace, avail, aged, b) && Sized(limits.maxSize, b, d);
    gone := AgedSet(limits.maxAge, now, c);
    var spaced := SpacedSet(limits.minFreeSpace, avail, aged, b);
    MoreCandidates(c, gone, spaced);
    gone := gone + spaced;
    var sized := SizedSet(limits.maxSize, b, d);
    MoreCandidates(c, gone, sized);
    gone := gone + sized;
  }

  // ---------- What is safe from the evictor ----------

  lemma PinnedNotTaken(c: Cache, gone: set<Path>, p: Path)
    requires p in c.rows && (c.rows[p].pinned || c.rows[p].isDir) && forall q | q in gone :: Candidate(c, q)
    ensures At(EvictSet(c, gone), p) == At(c, p)
  {
    assert p !in gone;
  }

  /** What the user has pinned is never evicted, nor is a directory, whatever its state and its ranges: no pass
      and no check takes its row or its file. */
  lemma PinnedStays(limits: Limits, now: int, avail: int, need: int, c: Cache, d: Cache, p: Path)
    requires p in c.rows && (c.rows[p].pinned || c.rows[p].isDir)
    ensures Checked(limits, now, avail, c, d) ==> At(d, p) == At(c, p)
    ensures LruPass(c, d, need) ==> At(d, p) == At(c, p)
    ensures At(AgePass(c, now), p) == At(c, p)
  {
    if Checked(limits, now, avail, c, d) {
      var gone := CheckedSet(limits, now, avail, c, d);
      PinnedNotTaken(c, gone, p);
    }
    if LruPass(c, d, need) {
      var gone := PassSet(c, d, need);
      PinnedNotTaken(c, gone, p);
    }
  }

  /** The file has been evicted: it is gone and its row says so, with everything else as it was. */
  predicate IsEvicted(before: Cell, after: Cell) {
    && after.file.None? && before.row.Some? && after.row.Some?
    && var e, f := before.row.value, after.row.value;
      && f.state.Evicted? && f.ranges.None? && !f.syncError && !f.pinned && !f.isDir
      && f.size == e.size && f.remoteMtime == e.remoteMtime && f.localMtime == e.localMtime
      && f.lastAccess == e.lastAccess
  }

  /** A check leaves a path as it is or evicts its file. No row and no record of a conflict ever goes. */
  lemma CheckedCells(limits: Limits, now: int, avail: int, c: Cache, d: Cache, p: Path)
    requires Checked(limits, now, avail, c, d)
    ensures At(d, p).conflict == At(c, p).conflict
    ensures At(d, p) == At(c, p) || IsEvicted(At(c, p), At(d, p))
  {
    var gone := CheckedSet(limits, now, avail, c, d);
    assert p in gone ==> Candidate(c, p);
  }

  /** A second check evicts nothing, if the file system has at least the bytes back that the first one freed. */
  lemma SecondCheckQuiet(limits: Limits, now: int, avail: int, again: int, c: Cache, d: Cache, e: Cache)
    requires SizesMatch(c) && Checked(limits, now, avail, c, d) && Checked(limits, now, again, d, e)
    requires limits.minFreeSpace > 0 ==> again >= avail + Usage(Aged(limits.maxAge, now, c).files) - Usage(d.files)
    ensures e == d
  {
    var aged := Aged(limits.maxAge, now, c);
    var b :| Spaced(limits.minFreeSpace, avail, aged, b) && Sized(limits.maxSize, b, d);
    AgedMatches(limits.maxAge, now, c);
    SpacedMatches(limits.minFreeSpace, avail, aged, b);
    AgedAgain(limits, now, avail, c, b, d);
    var f :| Spaced(limits.minFreeSpace, again, d, f) && Sized(limits.maxSize, f, e);
    SpaceQuiet(limits.minFreeSpace, limits.maxSize, avail, again, aged, b, d, f);
    SizeQuiet(b, d, e, limits.maxSize);
  }

  // ---------- Where the predicate is too wide ----------

  /** `SyncWrittenFile`: the row becomes dirty, the ranges column stays. */
  function WrittenEntry(e: Entry, size: nat, now: int): Entry {
    e.(isDir := false, size := size, localMtime := now, state := Dirty)
  }

  /** The cache after an edit of `p`. */
  function Edited(c: Cache, p: Path, content: seq<Byte>, now: int): Cache
    requires p in c.rows
  {
    c.(rows := c.rows[p := WrittenEntry(c.rows[p], |content|, now)], files := c.files[p := content])
  }

  /** An edit is uploaded as it was written: unless the remote has moved, the remote file gets its bytes and its
      time, and the row becomes clean with their size and time. */
  lemma EditUploads(c: Cache, remote: Remote, strategy: Strategy, p: Path, content: seq<Byte>, now: int)
    requires p in c.rows && p != [] && p !in remote.broken
    requires c.rows[p].remoteMtime > 0 ==> p in remote.nodes ==> remote.nodes[p].mtime <= c.rows[p].remoteMtime
    ensures var d := Edited(c, p, content, now);
      var (after, r) := SyncCycle.UploadFile(d, remote, strategy, p, d.rows[p]);
      && SyncCycle.IsDirtyFile(d, p)
      && p in r.nodes && r.nodes[p].content == content && r.nodes[p].mtime == now && !r.nodes[p].isDir
      && p in after.rows && after.rows[p].state.Clean? && after.rows[p].size == |content|
      && after.rows[p].remoteMtime == after.rows[p].localMtime == now && Lookup(after.files, p) == Some(content)
  {
  }

  lemma {:induction false} FreedGrows(c: Cache, listed: seq<Path>, i: nat, k: nat)
    requires i <= k <= |listed| && forall p | p in listed :: p in c.rows
    ensures Freed(c, listed, i) <= Freed(c, listed, k)
  {
    if i < k {
      FreedGrows(c, listed, i, k - 1);
    }
  }

  /** A pass takes the i-th candidate exactly if those before it do not free enough. */
  lemma PassTakes(c: Cache, d: Cache, need: int, listed: seq<Path>, k: nat, i: nat)
    requires ShortestPrefix(c, d, need, listed, k) && i < |listed|
    ensures listed[i] in First(listed, k) <==> Freed(c, listed, i) < need
  {
    if i >= k {
      FreedGrows(c, listed, k, i);
    }
  }

  /** The listing is documented to hold clean entries. A file edited after it was downloaded is listed too,
      exactly when its row still names ranges and is not pinned. The age pass then takes the edit if it was
      not accessed after the cutoff; the other passes, if the candidates listed before it do not free enough.
      Its bytes are gone from the disk, and its row from the upload queue. */
  lemma EditEvicted(c: Cache, p: Path, content: seq<Byte>, now: int, cutoff: int)
    requires p in c.rows
    ensures var d := Edited(c, p, content, now);
      var listable := c.rows[p].ranges.Some? && !c.rows[p].pinned;
      && (Candidate(d, p) <==> listable)
      && (p !in AgePass(d, cutoff).files <==> listable && c.rows[p].lastAccess <= cutoff)
      && (AgePass(d, cutoff).rows[p].state.Evicted? <==> listable && c.rows[p].lastAccess <= cutoff)
      && forall e, need, listed, k: nat | ShortestPrefix(d, e, need, listed, k) ::
           && p in e.rows && (p !in e.files <==> e.rows[p].state.Evicted?)
           && (p !in e.files <==> exists i :: 0 <= i < |listed| && listed[i] == p && Freed(d, listed, i) < need)
  {
    var d := Edited(c, p, content, now);
    forall e, need, listed, k: nat | ShortestPrefix(d, e, need, listed, k)
      ensures p in e.rows && (p !in e.files <==> e.rows[p].state.Evicted?)
      ensures p !in e.files <==> exists i :: 0 <= i < |listed| && listed[i] == p && Freed(d, listed, i) < need
    {
      forall i | 0 <= i < |listed| ensures listed[i] in First(listed, k) <==> Freed(d, listed, i) < need {
        PassTakes(d, e, need, listed, k, i);
      }
    }
  }

  /** A row that pull has evicted again keeps its ranges but has no file. It is a candidate, and the size pass
      counts its bytes as freed: if it comes first and claims enough, the pass stops there and frees nothing,
      whatever the real usage and the other candidates. */
  lemma PhantomBytes(c: Cache, d: Cache, maxSize: nat, p: Path)
    requires LruPass(c, d, Usage(c.files) - maxSize) && Usage(c.files) > maxSize
    requires Candidate(c, p) && p !in c.files && c.rows[p].size >= Usage(c.files) - maxSize
    requires forall q | Candidate(c, q) && q != p :: c.rows[p].lastAccess < c.rows[q].lastAccess
    ensures d.files == c.files && forall q | Candidate(c, q) && q != p :: Candidate(d, q)
  {
    var listed, k: nat :| ShortestPrefix(c, d, Usage(c.files) - maxSize, listed, k);
    assert p in listed;
    var i :| 0 <= i < |listed| && listed[i] == p;
    assert Candidate(c, listed[0]);
    assert i == 0;
    assert Freed(c, listed, 1) == c.rows[p].size;
    assert k == 1;
    assert First(listed, 1) == {p};
    assert d.files == c.files;
  }

  /** Pull makes such rows: exactly those whose row named ranges. */
  lemma ReEvictedIsPhantom(c: Cache, strategy: Strategy, remote: Remote, p: Path)
    requires p in remote.nodes && p != [] && p in c.rows && remote.nodes[p].mtime > c.rows[p].remoteMtime
    requires (c.rows[p].state.Clean? || c.rows[p].state.Evicted?) && !c.rows[p].pinned && !c.rows[p].isDir
    ensures var d := PullEntry(c, strategy, remote, p);
      p !in d.files && (Candidate(d, p) <==> c.rows[p].ranges.Some?)
  {
  }
}
