/** The global eviction pass over all torrents (storage/storage.go). */
module Storages {
  import opened Common
  import opened Windows
  import opened Caches

  type Hash = nat

  /** A piece of one torrent. */
  type Key = (Hash, int)

  type Views = map<Hash, CacheSt>

  type Guards = map<Hash, set<int>>

  /** The pieces each torrent's readers keep out of eviction. */
  ghost function GuardsOf(views: Views): Guards {
    map h | h in views :: Guard(views[h])
  }

  /** Evictable when the pass starts: complete, and outside what that torrent's readers guard. */
  predicate InPool(views: Views, guards: Guards, k: Key) {
    k.0 in views && k.0 in guards && Evictable(views[k.0], guards[k.0], k.1)
  }

  function SlotAt(views: Views, k: Key): Slot
    requires k.0 in views && k.1 in views[k.0].pieces
  {
    views[k.0].pieces[k.1]
  }

  function AccessedAt(views: Views, k: Key): nat {
    if k.0 in views && k.1 in views[k.0].pieces then SlotAt(views, k).mem.accessed else 0
  }

  function BytesAt(views: Views, k: Key): nat {
    if k.0 in views && k.1 in views[k.0].pieces then SlotAt(views, k).mem.accounted else 0
  }

  /** Bytes given back by the first `n` victims. */
  function Freed(views: Views, victims: seq<Key>, n: nat): int
    requires n <= |victims|
  {
    if n == 0 then 0 else Freed(views, victims, n - 1) + BytesAt(views, victims[n - 1])
  }

  /**
   What an eviction pass that starts from `views` owes its caller: it ends within budget or with
   nothing left to evict, it never prefers a piece used later to one used earlier, it was still over
   budget before every eviction it made, and it gave back exactly the victims' bytes.
   */
  ghost predicate LruPass(views: Views, guards: Guards, victims: seq<Key>, filled0: int, filled1: int, capacity: int) {
    && (forall k :: k in victims ==> InPool(views, guards, k))
    && Distinct(victims)
    && filled1 == filled0 - Freed(views, victims, |victims|)
    && (filled1 <= capacity || forall k :: InPool(views, guards, k) ==> k in victims)
    && (forall v, s :: v in victims && InPool(views, guards, s) && s !in victims ==> AccessedAt(views, v) <= AccessedAt(views, s))
    && (forall i :: 0 <= i < |victims| ==> filled0 - Freed(views, victims, i) > capacity)
  }

  lemma DistinctPrefix<T>(s: seq<T>, n: nat)
    requires 0 < n <= |s| && Distinct(s)
    ensures s[..n] == s[..n - 1] + [s[n - 1]] && s[n - 1] !in s[..n - 1]
  {
  }

  // ---------------------------------------------------------------- the order of a pass

  datatype GlobalCand = GlobalCand(k: Key, id: nat, accessed: nat)

  ghost predicate Sorted(s: seq<GlobalCand>) {
    forall i, j :: 0 <= i < j < |s| ==> s[i].accessed <= s[j].accessed
  }

  method InsertByAccess(s: seq<GlobalCand>, x: GlobalCand) returns (r: seq<GlobalCand>)
    requires Sorted(s)
    ensures Sorted(r) && multiset(r) == multiset(s) + multiset{x}
  {
    var k := |s|;
    while k > 0 && x.accessed < s[k - 1].accessed
      invariant 0 <= k <= |s|
      invariant forall j :: k <= j < |s| ==> x.accessed <= s[j].accessed
    {
      k := k - 1;
    }
    r := s[..k] + [x] + s[k..];
    InsertKeepsBag(s, x, k);
  }

  lemma InsertKeepsBag<T>(s: seq<T>, x: T, k: nat)
    requires k <= |s|
    ensures multiset(s[..k] + [x] + s[k..]) == multiset(s) + multiset{x}
  {
    assert s == s[..k] + s[k..];
  }

  method SortByAccess(s: seq<GlobalCand>) returns (r: seq<GlobalCand>)
    ensures Sorted(r) && multiset(r) == multiset(s)
  {
    r := [];
    for i := 0 to |s|
      invariant Sorted(r) && multiset(r) == multiset(s[..i])
    {
      assert s[..i + 1] == s[..i] + [s[i]];
      r := InsertByAccess(r, s[i]);
    }
    assert s[..|s|] == s;
  }

  lemma CountAtMostOne<T>(s: seq<T>, i: nat, j: nat)
    requires i < j < |s| && multiset(s)[s[i]] <= 1
    ensures s[i] != s[j]
  {
    assert s == s[..j] + s[j..];
    assert multiset(s) == multiset(s[..j]) + multiset(s[j..]);
    assert s[i] in s[..j] && s[j] in s[j..];
  }

  lemma ConcatAtMostOne<T>(a: seq<T>, b: seq<T>)
    requires forall x :: x in b ==> x !in a
    requires (forall x :: multiset(a)[x] <= 1) && (forall x :: multiset(b)[x] <= 1)
    ensures forall x :: multiset(a + b)[x] <= 1
  {
    forall x ensures multiset(a + b)[x] <= 1 {
      assert multiset(a + b) == multiset(a) + multiset(b);
      if x in b {
        assert x !in multiset(a);
      } else {
        assert x !in multiset(b);
      }
    }
  }

  /** The record collected for an evictable piece. */
  predicate RecordOf(views: Views, guards: Guards, e: GlobalCand) {
    InPool(views, guards, e.k) && e == GlobalCand(e.k, SlotAt(views, e.k).id, SlotAt(views, e.k).mem.accessed)
  }

  /** `cands` records every evictable piece once, least recently used first. */
  ghost predicate Lists(views: Views, guards: Guards, cands: seq<GlobalCand>) {
    && (forall i :: 0 <= i < |cands| ==> RecordOf(views, guards, cands[i]))
    && (forall k :: InPool(views, guards, k) ==> exists i :: 0 <= i < |cands| && cands[i].k == k)
    && (forall i, j :: 0 <= i < j < |cands| ==> cands[i].k != cands[j].k)
    && Sorted(cands)
  }

  lemma SortedLists(views: Views, guards: Guards, found: seq<GlobalCand>, cands: seq<GlobalCand>)
    requires Sorted(cands) && multiset(cands) == multiset(found) && forall e :: multiset(found)[e] <= 1
    requires forall e :: e in found <==> RecordOf(views, guards, e)
    ensures Lists(views, guards, cands)
  {
    forall i | 0 <= i < |cands| ensures RecordOf(views, guards, cands[i]) {
      assert cands[i] in multiset(cands);
    }
    forall k | InPool(views, guards, k) ensures exists i :: 0 <= i < |cands| && cands[i].k == k {
      var e := GlobalCand(k, SlotAt(views, k).id, SlotAt(views, k).mem.accessed);
      assert e in found;
      assert e in multiset(cands);
    }
    forall i, j | 0 <= i < j < |cands| ensures cands[i].k != cands[j].k {
      CountAtMostOne(cands, i, j);
    }
  }

  function KeysOf(cands: seq<GlobalCand>): (ks: seq<Key>)
    ensures |ks| == |cands| && forall i :: 0 <= i < |cands| ==> ks[i] == cands[i].k
  {
    seq(|cands|, i requires 0 <= i < |cands| => cands[i].k)
  }

  // ---------------------------------------------------------------- the effect of a pass

  /** Cache `c` is `c0` with this torrent's victims gone; what it owed the ledger is unchanged. */
  ghost predicate Remains(c: CacheSt, c0: CacheSt, h: Hash, victims: seq<Key>) {
    && c.sh == c0.sh && c.readers == c0.readers && c.closed == c0.closed && c.nextId == c0.nextId
    && c.filled - ResidentBytes(c) == c0.filled - ResidentBytes(c0)
    && c.pieces == map i | i in c0.pieces && (h, i) !in victims :: c0.pieces[i]
  }

  lemma VictimLeaves(c: CacheSt, c0: CacheSt, h: Hash, victims: seq<Key>, idx: int)
    requires Remains(c, c0, h, victims) && idx in c.pieces
    ensures Remains(Dropped(c, idx), c0, h, victims + [(h, idx)])
  {
    SumByRemove(c.pieces, Accounted(), idx);
  }

  lemma OthersStay(c: CacheSt, c0: CacheSt, h: Hash, victims: seq<Key>, k: Key)
    requires Remains(c, c0, h, victims) && k.0 != h
    ensures Remains(c, c0, h, victims + [k])
  {
    assert forall i :: (h, i) in victims + [k] <==> (h, i) in victims;
  }

  ghost predicate AllRemain(views: Views, views0: Views, victims: seq<Key>) {
    views.Keys == views0.Keys && forall h :: h in views0 ==> Remains(views[h], views0[h], h, victims)
  }

  lemma NothingGone(views: Views, ks: seq<Key>)
    ensures AllRemain(views, views, ks[..0])
  {
  }

  /** A candidate not yet evicted still passes every check, and evicting it takes out exactly that piece. */
  lemma EvictNext(views: Views, views0: Views, guards: Guards, victims: seq<Key>, e: GlobalCand)
    requires AllRemain(views, views0, victims) && RecordOf(views0, guards, e) && e.k !in victims
    ensures var (c, size) := Evicted(views[e.k.0], guards[e.k.0], e.k.1, e.id);
            AllRemain(views[e.k.0 := c], views0, victims + [e.k]) && size == BytesAt(views0, e.k)
  {
    var k := e.k;
    var c := views[k.0];
    assert Evictable(c, guards[k.0], k.1) && c.pieces[k.1] == SlotAt(views0, k);
    VictimLeaves(c, views0[k.0], k.0, victims, k.1);
    forall h | h in views0 && h != k.0 ensures Remains(views[h], views0[h], h, victims + [k]) {
      OthersStay(views[h], views0[h], h, victims, k);
    }
  }

  lemma {:induction false} FreedGrows(views: Views, ks: seq<Key>, j: nat, n: nat)
    requires j <= n <= |ks|
    ensures Freed(views, ks, j) <= Freed(views, ks, n)
  {
    if j < n {
      FreedGrows(views, ks, j, n - 1);
    }
  }

  lemma {:induction false} FreedPrefix(views: Views, ks: seq<Key>, n: nat, j: nat)
    requires j <= n <= |ks|
    ensures Freed(views, ks[..n], j) == Freed(views, ks, j)
  {
    if j > 0 {
      FreedPrefix(views, ks, n, j - 1);
    }
  }

  lemma PrefixIsOldest(views: Views, guards: Guards, cands: seq<GlobalCand>, ks: seq<Key>, n: nat, v: Key, s: Key)
    requires n <= |cands| && Lists(views, guards, cands) && ks == KeysOf(cands)
    requires v in ks[..n] && InPool(views, guards, s) && s !in ks[..n]
    ensures InPool(views, guards, v) && AccessedAt(views, v) <= AccessedAt(views, s)
  {
    var i :| 0 <= i < n && ks[i] == v;
    var j :| 0 <= j < |cands| && cands[j].k == s;
    assert RecordOf(views, guards, cands[i]) && RecordOf(views, guards, cands[j]);
    assert forall m :: 0 <= m < n ==> ks[m] in ks[..n];
  }

  lemma PrefixFromPool(views: Views, guards: Guards, cands: seq<GlobalCand>, ks: seq<Key>, n: nat, k: Key)
    requires n <= |cands| && Lists(views, guards, cands) && ks == KeysOf(cands)
    ensures k in ks[..n] ==> InPool(views, guards, k)
    ensures n == |cands| && InPool(views, guards, k) ==> k in ks[..n]
  {
    if k in ks[..n] {
      var i :| 0 <= i < n && ks[i] == k;
      assert RecordOf(views, guards, cands[i]);
    }
    if n == |cands| && InPool(views, guards, k) {
      var i :| 0 <= i < |cands| && cands[i].k == k;
      assert ks[..n][i] == k;
    }
  }

  /** Over budget before the last eviction means over budget before each. */
  lemma PassWasOver(views: Views, ks: seq<Key>, n: nat, filled0: int, capacity: int)
    requires n <= |ks| && (n == 0 || filled0 - Freed(views, ks, n - 1) > capacity)
    ensures forall j :: 0 <= j < n ==> filled0 - Freed(views, ks[..n], j) > capacity
    ensures Freed(views, ks[..n], n) == Freed(views, ks, n)
  {
    forall j | 0 <= j < n ensures filled0 - Freed(views, ks[..n], j) > capacity {
      FreedGrows(views, ks, j, n - 1);
      FreedPrefix(views, ks, n, j);
    }
    FreedPrefix(views, ks, n, n);
  }

  lemma PassIsLru(views: Views, guards: Guards, cands: seq<GlobalCand>, ks: seq<Key>, n: nat, filled0: int, filled1: int, capacity: int)
    requires n <= |cands| && Lists(views, guards, cands) && ks == KeysOf(cands)
    requires filled1 == filled0 - Freed(views, ks, n) && (n == |cands| || filled1 <= capacity)
    requires n == 0 || filled0 - Freed(views, ks, n - 1) > capacity
    ensures LruPass(views, guards, ks[..n], filled0, filled1, capacity)
  {
    PassWasOver(views, ks, n, filled0, capacity);
    VictimsAreOldest(views, guards, cands, ks, n);
  }

  lemma VictimsAreOldest(views: Views, guards: Guards, cands: seq<GlobalCand>, ks: seq<Key>, n: nat)
    requires n <= |cands| && Lists(views, guards, cands) && ks == KeysOf(cands)
    ensures forall v, s :: v in ks[..n] && InPool(views, guards, s) && s !in ks[..n] ==> AccessedAt(views, v) <= AccessedAt(views, s)
    ensures forall k :: k in ks[..n] ==> InPool(views, guards, k)
    ensures n == |cands| ==> forall k :: InPool(views, guards, k) ==> k in ks[..n]
    ensures Distinct(ks[..n])
  {
    forall v, s | v in ks[..n] && InPool(views, guards, s) && s !in ks[..n] ensures AccessedAt(views, v) <= AccessedAt(views, s) {
      PrefixIsOldest(views, guards, cands, ks, n, v, s);
    }
    forall k ensures k in ks[..n] ==> InPool(views, guards, k)
             ensures n == |cands| && InPool(views, guards, k) ==> k in ks[..n]
    {
      PrefixFromPool(views, guards, cands, ks, n, k);
    }
  }

  /** A pass: the caches and the total when it starts, and the candidates in order. */
  datatype Pass = Pass(views0: Views, filled0: int, cands: seq<GlobalCand>, ks: seq<Key>)

  /** The first `n` candidates are gone, nothing else changed, and the last went while over budget. */
  ghost predicate Progress(p: Pass, views: Views, filled: int, capacity: int, n: nat) {
    match p
    case Pass(views0, filled0, cands, ks) =>
      && n <= |ks| && AllRemain(views, views0, ks[..n])
      && filled == filled0 - Freed(views0, ks, n)
      && (n == 0 || filled0 - Freed(views0, ks, n - 1) > capacity)
  }

  /** The n-th candidate is an evictable piece of the caches at the start, and no earlier one is the same piece. */
  ghost predicate PlannedAt(p: Pass, n: nat) {
    match p
    case Pass(views0, _, cands, ks) =>
      n < |cands| == |ks| && ks[n] == cands[n].k && ks[n] !in ks[..n] && RecordOf(views0, GuardsOf(views0), cands[n])
  }

  ghost predicate Planned(p: Pass) {
    match p
    case Pass(_, _, cands, ks) => |cands| == |ks| && forall n: nat :: n < |cands| ==> PlannedAt(p, n)
  }

  lemma ProgressOne(p: Pass, views: Views, views': Views, filled: int, capacity: int, n: nat)
    requires Progress(p, views, filled, capacity, n) && n < |p.ks| && filled > capacity
    requires AllRemain(views', p.views0, p.ks[..n] + [p.ks[n]])
    ensures Progress(p, views', filled - BytesAt(p.views0, p.ks[n]), capacity, n + 1)
  {
    assert p.ks[..n + 1] == p.ks[..n] + [p.ks[n]];
  }

  lemma RemainGuards(views: Views, views0: Views, victims: seq<Key>)
    requires AllRemain(views, views0, victims)
    ensures GuardsOf(views) == GuardsOf(views0)
  {
  }

  lemma PassStarts(p: Pass, guards: Guards, capacity: int)
    requires Lists(p.views0, guards, p.cands) && p.ks == KeysOf(p.cands) && guards == GuardsOf(p.views0)
    ensures Planned(p) && Progress(p, p.views0, p.filled0, capacity, 0)
  {
    forall n: nat | n < |p.cands| ensures PlannedAt(p, n) {
      assert RecordOf(p.views0, guards, p.cands[n]);
      assert Distinct(p.ks);
      DistinctPrefix(p.ks, n + 1);
    }
    NothingGone(p.views0, p.ks);
  }

  lemma PassEnds(p: Pass, guards: Guards, views: Views, filled: int, capacity: int, n: nat)
    requires Lists(p.views0, guards, p.cands) && p.ks == KeysOf(p.cands) && n <= |p.cands|
    requires Progress(p, views, filled, capacity, n) && (n == |p.cands| || filled <= capacity)
    ensures LruPass(p.views0, guards, p.ks[..n], p.filled0, filled, capacity) && AllRemain(views, p.views0, p.ks[..n])
  {
    PassIsLru(p.views0, guards, p.cands, p.ks, n, p.filled0, filled, capacity);
  }

  /** Every resident piece of an open torrent is incomplete or in some registered reader's protected pieces. */
  ghost predicate NothingLeft(views: Views) {
    forall h: Hash, i: int ::
      h in views && !views[h].closed && ValidShape(views[h].sh) && i in views[h].pieces
      && views[h].pieces[i].mem.complete && views[h].pieces[i].mem.data.Some?
      ==> exists r: nat :: r in views[h].readers && i in Protects(views[h].readers[r], views[h].sh)
  }

  /** Each victim was a complete resident piece that no registered reader protected. */
  ghost predicate AllSpare(views: Views, victims: seq<Key>) {
    forall k :: k in victims ==>
      && k.0 in views && !views[k.0].closed && k.1 in views[k.0].pieces
      && views[k.0].pieces[k.1].mem.complete && views[k.0].pieces[k.1].mem.data.Some?
      && (ValidShape(views[k.0].sh) ==> forall r :: r in views[k.0].readers ==> k.1 !in Protects(views[k.0].readers[r], views[k.0].sh))
  }

  lemma PoolIsSpare(views: Views, victims: seq<Key>)
    requires forall k :: k in victims ==> InPool(views, GuardsOf(views), k)
    ensures AllSpare(views, victims)
  {
    forall k | k in victims ensures k.1 !in Guard(views[k.0]) {
      assert InPool(views, GuardsOf(views), k);
    }
  }

  lemma PoolEmptied(views0: Views, views: Views, victims: seq<Key>)
    requires AllRemain(views, views0, victims) && forall k :: InPool(views0, GuardsOf(views0), k) ==> k in victims
    ensures NothingLeft(views)
  {
    forall h: Hash, i: int | h in views && !views[h].closed && ValidShape(views[h].sh) && i in views[h].pieces
      && views[h].pieces[i].mem.complete && views[h].pieces[i].mem.data.Some?
      ensures exists r: nat :: r in views[h].readers && i in Protects(views[h].readers[r], views[h].sh)
    {
      assert Remains(views[h], views0[h], h, victims);
      assert !InPool(views0, GuardsOf(views0), (h, i));
      assert i in Guard(views0[h]);
    }
  }

  // ---------------------------------------------------------------- the object

  /** Distinct torrents have distinct caches. */
  ghost predicate Separate(cs: map<Hash, Cache>) {
    && (forall h :: h in cs ==> ValidShape(cs[h].sh))
    && (forall h, g :: h in cs && g in cs && h != g ==> cs[h] != cs[g])
  }

  ghost function ViewsOf(cs: map<Hash, Cache>): Views
    reads cs.Values
  {
    map h | h in cs :: cs[h].View()
  }

  class Storage {
    var caches: map<Hash, Cache>
    var globalFilled: int
    var globalCapacity: int

    /** The capacity is clamped whenever it is set. */
    ghost predicate Valid()
      reads this`caches, this`globalCapacity
    {
      globalCapacity >= PER_STREAM && Separate(caches)
    }

    ghost function CacheViews(): Views
      reads this`caches, caches.Values
    {
      ViewsOf(caches)
    }

    ghost function ReaderGuards(): Guards
      reads this`caches, caches.Values
    {
      GuardsOf(CacheViews())
    }

    constructor (cacheSizeBytes: int)
      ensures Valid() && caches == map[] && globalFilled == 0 && globalCapacity == Clamped(cacheSizeBytes)
    {
      caches, globalFilled, globalCapacity := map[], 0, Clamped(cacheSizeBytes);
    }

    method CollectAll(ghost views: Views, ghost guards: Guards) returns (cands: seq<GlobalCand>)
      requires Valid() && views == CacheViews() && guards == ReaderGuards()
      ensures forall e :: e in cands <==> RecordOf(views, guards, e)
      ensures forall e :: multiset(cands)[e] <= 1
    {
      cands := [];
      var todo := caches.Keys;
      while todo != {}
        invariant todo <= caches.Keys
        invariant forall e :: e in cands <==> e.k.0 !in todo && RecordOf(views, guards, e)
        invariant forall e :: multiset(cands)[e] <= 1
      {
        var h := Pick(todo);
        var more := CollectFrom(h, views, guards);
        ConcatAtMostOne(cands, more);
        cands := cands + more;
        todo := todo - {h};
      }
    }

    method CollectFrom(h: Hash, ghost views: Views, ghost guards: Guards) returns (out: seq<GlobalCand>)
      requires Valid() && h in caches && views == CacheViews() && guards == ReaderGuards()
      ensures forall e :: e in out <==> e.k.0 == h && RecordOf(views, guards, e)
      ensures forall e :: multiset(out)[e] <= 1
    {
      var found := caches[h].CollectEvictCandidates();
      out := Tagged(h, found);
    }

    static method Tagged(h: Hash, found: seq<Cand>) returns (out: seq<GlobalCand>)
      requires forall i, j :: 0 <= i < j < |found| ==> found[i].idx != found[j].idx
      ensures forall e :: e in out <==> e.k.0 == h && Cand(e.k.1, e.id, e.accessed) in found
      ensures forall e :: multiset(out)[e] <= 1
    {
      out := [];
      for i := 0 to |found|
        invariant forall e :: e in out <==> e.k.0 == h && Cand(e.k.1, e.id, e.accessed) in found[..i]
        invariant forall e :: multiset(out)[e] <= 1
      {
        var x := GlobalCand((h, found[i].idx), found[i].id, found[i].accessed);
        assert x !in out;
        out := out + [x];
        assert found[..i + 1] == found[..i] + [found[i]];
      }
      assert found[..|found|] == found;
    }

    /** Every evictable piece of every torrent, least recently used first. */
    method SortedCandidates(ghost views: Views, ghost guards: Guards) returns (cands: seq<GlobalCand>)
      requires Valid() && views == CacheViews() && guards == ReaderGuards()
      ensures Lists(views, guards, cands)
    {
      var found := CollectAll(views, guards);
      cands := SortByAccess(found);
      SortedLists(views, guards, found, cands);
    }

    /** Bytes that landed are booked with their cache and, if it is open, with the global accountant. */
    method UpdateFilled(h: Hash, n: int)
      requires Valid() && h in caches
      modifies this`globalFilled, caches[h]
      ensures CacheViews() == old(CacheViews())[h := Caches.Reported(old(CacheViews())[h], n)]
      ensures globalFilled == old(globalFilled) + if old(caches[h].closed) then 0 else n
    {
      ghost var views := CacheViews();
      var add := caches[h].UpdateFilled(n);
      assert CacheViews() == views[h := caches[h].View()];
      if add {
        globalFilled := globalFilled + n;
      }
    }

    /** One evictPiece call, with the global accountant updated after the cache lock is dropped. */
    method EvictAt(cs: map<Hash, Cache>, k: Key, id: nat, ghost views: Views, ghost guards: Guards)
      requires Separate(cs) && k.0 in cs && views == ViewsOf(cs) && guards == GuardsOf(views)
      modifies this`globalFilled, cs.Values
      ensures var (c, size) := Evicted(views[k.0], guards[k.0], k.1, id);
              ViewsOf(cs) == views[k.0 := c] && globalFilled == old(globalFilled) - size
    {
      var size := cs[k.0].EvictPiece(k.1, id);
      assert ViewsOf(cs) == views[k.0 := cs[k.0].View()];
      globalFilled := globalFilled - size;
    }

    /** The next candidate goes. */
    method EvictStep(cs: map<Hash, Cache>, cands: seq<GlobalCand>, n: nat, ghost p: Pass)
      requires Separate(cs) && Planned(p) && p.cands == cands && n < |cands| && globalFilled > globalCapacity
      requires Progress(p, ViewsOf(cs), globalFilled, globalCapacity, n)
      modifies this`globalFilled, cs.Values
      ensures Progress(p, ViewsOf(cs), globalFilled, globalCapacity, n + 1)
    {
      ghost var views, filled, guards := ViewsOf(cs), globalFilled, GuardsOf(p.views0);
      RemainGuards(views, p.views0, p.ks[..n]);
      assert PlannedAt(p, n);
      EvictNext(views, p.views0, guards, p.ks[..n], cands[n]);
      EvictAt(cs, cands[n].k, cands[n].id, views, guards);
      ProgressOne(p, views, ViewsOf(cs), filled, globalCapacity, n);
    }

    /** The eviction loop over the caches as they were snapshot: oldest first, until within budget. */
    method EvictInOrder(cs: map<Hash, Cache>, cands: seq<GlobalCand>, ghost p: Pass) returns (n: nat)
      requires Separate(cs) && Planned(p) && p.cands == cands && Progress(p, ViewsOf(cs), globalFilled, globalCapacity, 0)
      modifies this`globalFilled, cs.Values
      ensures n <= |cands| && (n == |cands| || globalFilled <= globalCapacity)
      ensures Progress(p, ViewsOf(cs), globalFilled, globalCapacity, n)
    {
      n := 0;
      while n < |cands| && globalFilled > globalCapacity
        invariant n <= |cands| && Progress(p, ViewsOf(cs), globalFilled, globalCapacity, n)
      {
        EvictStep(cs, cands, n, p);
        n := n + 1;
      }
    }

    /**
     The pass, with nothing running between its steps: an exact least-recently-used eviction over all
     torrents, which leaves everything else as it was.
     */
    method EvictGlobalIfNeeded() returns (ghost victims: seq<Key>)
      requires Valid()
      modifies this`globalFilled, caches.Values
      ensures LruPass(old(CacheViews()), old(ReaderGuards()), victims, old(globalFilled), globalFilled, globalCapacity)
      ensures AllRemain(CacheViews(), old(CacheViews()), victims)
      ensures globalFilled <= globalCapacity || NothingLeft(CacheViews())
      ensures AllSpare(old(CacheViews()), victims)
    {
      ghost var views, guards := CacheViews(), ReaderGuards();
      victims := [];
      if globalCapacity <= 0 || globalFilled <= globalCapacity {
        return;
      }
      var cands := SortedCandidates(views, guards);
      ghost var p := Pass(views, globalFilled, cands, KeysOf(cands));
      PassStarts(p, guards, globalCapacity);
      var n := EvictInOrder(caches, cands, p);
      victims := p.ks[..n];
      PassEnds(p, guards, CacheViews(), globalFilled, globalCapacity, n);
      PoolIsSpare(views, victims);
      if globalFilled > globalCapacity {
        PoolEmptied(views, CacheViews(), victims);
      }
    }

    /** Adjusts the budget, never below one comfortable stream, and evicts down to it. */
    method SetGlobalCapacity(bytes: int) returns (ghost victims: seq<Key>)
      requires Valid()
      modifies this`globalFilled, this`globalCapacity, caches.Values
      ensures Valid() && globalCapacity == Clamped(bytes)
      ensures LruPass(old(CacheViews()), old(ReaderGuards()), victims, old(globalFilled), globalFilled, globalCapacity)
      ensures AllRemain(CacheViews(), old(CacheViews()), victims)
      ensures globalFilled <= globalCapacity || NothingLeft(CacheViews())
      ensures AllSpare(old(CacheViews()), victims)
    {
      ghost var views, guards := CacheViews(), ReaderGuards();
      globalCapacity := Clamped(bytes);
      assert views == CacheViews() && guards == ReaderGuards();
      victims := EvictGlobalIfNeeded();
    }
  }
}
