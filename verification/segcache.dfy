/** The byte-bounded LRU of produced segments (handlers/hlscache.go). */
module SegCaches {
  import opened Common

  /** `order` runs from most to least recently used. */
  datatype Lru = Lru(order: seq<string>, items: map<string, seq<byte>>, cur: int, max: int)

  function Bytes(): seq<byte> -> int { (d: seq<byte>) => |d| }

  /** List and index hold the same distinct keys, and the byte count is the sum of the entries. */
  ghost predicate Consistent(c: Lru) {
    && Distinct(c.order)
    && (forall k :: k in c.order <==> k in c.items)
    && c.cur == SumBy(c.items, Bytes())
  }

  /** `s` without the keys in `dead`, order kept. */
  function Without(s: seq<string>, dead: set<string>): (r: seq<string>)
    ensures forall k :: k in r <==> k in s && k !in dead
    ensures Distinct(s) ==> Distinct(r)
  {
    if s == [] then []
    else if s[0] in dead then Without(s[1..], dead) else [s[0]] + Without(s[1..], dead)
  }

  function Front(s: seq<string>, k: string): seq<string> { [k] + Without(s, {k}) }

  function Got(c: Lru, k: string): Lru { if k in c.items then c.(order := Front(c.order, k)) else c }

  /** Drops from the back while over budget, but never the last entry. */
  function Trimmed(c: Lru): Lru
    requires forall k :: k in c.order ==> k in c.items
    requires Distinct(c.order)
    decreases |c.order|
  {
    if c.cur > c.max && |c.order| > 1 then Trimmed(BackDropped(c)) else c
  }

  function BackDropped(c: Lru): Lru
    requires c.order != [] && forall k :: k in c.order ==> k in c.items
  {
    var k := c.order[|c.order| - 1];
    c.(order := c.order[..|c.order| - 1], items := c.items - {k}, cur := c.cur - |c.items[k]|)
  }

  function Inserted(c: Lru, k: string, d: seq<byte>): Lru {
    Lru(Front(c.order, k), c.items[k := d], c.cur + |d| - (if k in c.items then |c.items[k]| else 0), c.max)
  }

  lemma InsertedConsistent(c: Lru, k: string, d: seq<byte>)
    requires Consistent(c)
    ensures Consistent(Inserted(c, k, d))
  {
    SumByUpdate(c.items, Bytes(), k, d);
  }

  lemma BackDroppedConsistent(c: Lru)
    requires Consistent(c) && c.order != []
    ensures Consistent(BackDropped(c))
  {
    var n := |c.order|;
    SumByRemove(c.items, Bytes(), c.order[n - 1]);
    forall k ensures k in c.order[..n - 1] <==> k in c.items && k != c.order[n - 1] {
      assert k in c.order <==> k in c.items;
    }
  }

  /** `c` is `c0` cut down to its most recent entries; one more would have been over budget. */
  ghost predicate RecentPart(c0: Lru, c: Lru) {
    var n := |c.order|;
    && n <= |c0.order| && c.order == c0.order[..n] && c.max == c0.max
    && Consistent(c) && (forall k :: k in c.items ==> k in c0.items && c.items[k] == c0.items[k])
    && (n < |c0.order| ==> c0.order[n] in c0.items && c.cur + |c0.items[c0.order[n]]| > c0.max)
  }

  lemma BackDroppedRecent(c0: Lru, c: Lru)
    requires RecentPart(c0, c) && c.cur > c.max && |c.order| > 1
    ensures RecentPart(c0, BackDropped(c))
  {
    var n := |c.order|;
    BackDroppedConsistent(c);
    assert c.order[n - 1] == c0.order[n - 1];
    assert c.order[..n - 1] == c0.order[..n - 1];
  }

  /** Eviction keeps a front part of the list, within budget or a single entry, and never more than needed. */
  lemma {:induction false} TrimmedIsRecent(c0: Lru, c: Lru)
    requires RecentPart(c0, c)
    ensures RecentPart(c0, Trimmed(c))
    ensures Trimmed(c).cur <= c0.max || |Trimmed(c).order| <= 1
    ensures c.order != [] ==> Trimmed(c).order != []
    decreases |c.order|
  {
    if c.cur > c.max && |c.order| > 1 {
      BackDroppedRecent(c0, c);
      TrimmedIsRecent(c0, BackDropped(c));
    }
  }

  /** A purge keeps exactly the entries whose keys do not start with the prefix, with their bytes and in their order. */
  lemma PurgeKeepsIff(c: Lru, prefix: string, k: string)
    ensures var purged := PrefixPurged(c, prefix);
            && (k in purged.items <==> k in c.items && !(|prefix| <= |k| && k[..|prefix|] == prefix))
            && (k in purged.items ==> purged.items[k] == c.items[k])
            && (Consistent(c) ==> (k in purged.order <==> k in purged.items))
  {
  }

  // ---------------------------------------------------------------- whole runs

  datatype Step = Get(k: string) | Put(k: string, d: seq<byte>) | Purge(prefix: string)

  /** The cache with its history: the last bytes put for each key and when each key was last used. */
  datatype State = State(c: Lru, put: map<string, seq<byte>>, used: map<string, nat>, clock: nat)

  ghost function Next(s: State, step: Step): State
    requires forall k :: k in s.c.order <==> k in s.c.items
    requires Distinct(s.c.order)
  {
    match step
    case Get(k) =>
      if k in s.c.items then s.(c := Got(s.c, k), used := s.used[k := s.clock], clock := s.clock + 1) else s
    case Put(k, d) =>
      State(Trimmed(Inserted(s.c, k, d)), s.put[k := d], s.used[k := s.clock], s.clock + 1)
    case Purge(prefix) => s.(c := PrefixPurged(s.c, prefix))
  }

  predicate HasPrefix(k: string, prefix: string) { prefix <= k }

  function Matching(c: Lru, prefix: string): set<string> { set k | k in c.items && HasPrefix(k, prefix) }

  ghost function PrefixPurged(c: Lru, prefix: string): Lru {
    Minus(c, Matching(c, prefix))
  }

  ghost function Run(s: State, steps: seq<Step>): State
    requires Good(s)
    decreases |steps|
  {
    if steps == [] then s
    else
      NextKeepsGood(s, steps[0]);
      Run(Next(s, steps[0]), steps[1..])
  }

  function Empty(max: int): State { State(Lru([], map[], 0, max), map[], map[], 0) }

  /** Bytes are the last put; the list is sorted by last use, most recent first. */
  ghost predicate Good(s: State) {
    && Consistent(s.c)
    && (forall k :: k in s.c.items ==> k in s.put && s.c.items[k] == s.put[k])
    && ByUse(s.c.order, s.used) && (forall k :: k in s.c.order ==> s.used[k] < s.clock)
  }

  ghost predicate ByUse(order: seq<string>, used: map<string, nat>) {
    && (forall k :: k in order ==> k in used)
    && (forall i, j :: 0 <= i < j < |order| ==> used[order[i]] > used[order[j]])
  }

  lemma HeadIsNewest(s: seq<string>, used: map<string, nat>)
    requires ByUse(s, used) && s != []
    ensures ByUse(s[1..], used) && s[0] in used && forall x :: x in s[1..] ==> x in used && used[s[0]] > used[x]
  {
    forall x | x in s[1..] ensures x in used && used[s[0]] > used[x] {
      var m :| 0 < m < |s| && s[m] == x;
    }
    assert forall i :: 0 <= i < |s| - 1 ==> s[1..][i] == s[i + 1];
  }

  lemma ConsByUse(k: string, r: seq<string>, used: map<string, nat>)
    requires ByUse(r, used) && k in used && forall x :: x in r ==> used[k] > used[x]
    ensures ByUse([k] + r, used)
  {
    assert forall i :: 0 < i < |r| + 1 ==> ([k] + r)[i] == r[i - 1] && r[i - 1] in r;
  }

  lemma {:induction false} WithoutByUse(s: seq<string>, dead: set<string>, used: map<string, nat>)
    requires ByUse(s, used)
    ensures ByUse(Without(s, dead), used)
    decreases |s|
  {
    if s != [] {
      HeadIsNewest(s, used);
      WithoutByUse(s[1..], dead, used);
      if s[0] !in dead {
        ConsByUse(s[0], Without(s[1..], dead), used);
      }
    }
  }

  lemma FrontByUse(s: seq<string>, k: string, used: map<string, nat>, clock: nat)
    requires ByUse(s, used) && forall x :: x in s ==> used[x] < clock
    ensures ByUse(Front(s, k), used[k := clock])
  {
    WithoutByUse(s, {k}, used);
    var r := Without(s, {k});
    forall j | 0 <= j < |r| ensures r[j] != k && used[r[j]] < clock {
      assert r[j] in r;
    }
  }

  lemma PutKeepsGood(s: State, k: string, d: seq<byte>)
    requires Good(s)
    ensures Good(Next(s, Put(k, d)))
  {
    var c := Inserted(s.c, k, d);
    InsertedConsistent(s.c, k, d);
    TrimmedIsRecent(c, c);
    FrontByUse(s.c.order, k, s.used, s.clock);
    RecentByUse(c, Trimmed(c), s.used[k := s.clock]);
    RecentBytes(s, k, d, c, Trimmed(c));
  }

  lemma RecentBytes(s: State, k: string, d: seq<byte>, c: Lru, t: Lru)
    requires Good(s) && c == Inserted(s.c, k, d) && RecentPart(c, t)
    ensures forall x :: x in t.items ==> x in s.put[k := d] && t.items[x] == s.put[k := d][x]
    ensures forall x :: x in t.order ==> x in s.used[k := s.clock] && s.used[k := s.clock][x] < s.clock + 1
  {
  }

  lemma RecentByUse(c0: Lru, c: Lru, used: map<string, nat>)
    requires RecentPart(c0, c) && ByUse(c0.order, used)
    ensures ByUse(c.order, used) && forall k :: k in c.order ==> k in c0.order
  {
  }

  lemma GetKeepsGood(s: State, k: string)
    requires Good(s)
    ensures Good(Next(s, Get(k)))
  {
    FrontByUse(s.c.order, k, s.used, s.clock);
  }

  lemma PurgeKeepsGood(s: State, prefix: string)
    requires Good(s)
    ensures Good(Next(s, Purge(prefix)))
  {
    WithoutByUse(s.c.order, Matching(s.c, prefix), s.used);
  }

  lemma NextKeepsGood(s: State, step: Step)
    requires Good(s)
    ensures Good(Next(s, step))
  {
    match step
    case Get(k) => GetKeepsGood(s, k);
    case Put(k, d) => PutKeepsGood(s, k, d);
    case Purge(prefix) => PurgeKeepsGood(s, prefix);
  }

  lemma {:induction false} RunKeepsGood(s: State, steps: seq<Step>)
    requires Good(s)
    ensures Good(Run(s, steps))
    decreases |steps|
  {
    if steps != [] {
      NextKeepsGood(s, steps[0]);
      RunKeepsGood(Next(s, steps[0]), steps[1..]);
    }
  }

  /**
   In every run the cache is a partial view of the plain map of last puts, its list and index agree, its
   byte count is exact, and its list is the order of last use.
   */
  lemma {:induction false} CacheRefinesMap(max: int, steps: seq<Step>)
    ensures Good(Empty(max))
    ensures Good(Run(Empty(max), steps))
  {
    RunKeepsGood(Empty(max), steps);
  }

  /**
   What a put does in any such state: the key is kept and holds the new bytes, the total is within budget
   or one entry remains, whatever was evicted was used before everything that stayed, and the most
   recently used of the evicted would not have fitted.
   */
  lemma PutEvictsLeastRecent(s: State, k: string, d: seq<byte>)
    requires Good(s)
    ensures var s' := Next(s, Put(k, d));
            && k in s'.c.items && s'.c.items[k] == d
            && (s'.c.cur <= s'.c.max || |s'.c.order| == 1)
            && (forall v, x :: v in s.c.items && v !in s'.c.items && x in s'.c.items ==> v in s'.used && x in s'.used && s'.used[v] < s'.used[x])
            && RecentPart(Inserted(s.c, k, d), s'.c)
  {
    var s', c := Next(s, Put(k, d)), Inserted(s.c, k, d);
    InsertedConsistent(s.c, k, d);
    TrimmedIsRecent(c, c);
    FrontByUse(s.c.order, k, s.used, s.clock);
    PutKeepsGood(s, k, d);
    assert s'.c.order[0] == c.order[0] == k;
    forall v, x | v in s.c.items && v !in s'.c.items && x in s'.c.items
      ensures v in s'.used && x in s'.used && s'.used[v] < s'.used[x]
    {
      VictimOlder(c, s'.c, s'.used, v, x);
    }
  }

  lemma VictimOlder(c0: Lru, c: Lru, used: map<string, nat>, v: string, x: string)
    requires Consistent(c0) && RecentPart(c0, c) && ByUse(c0.order, used) && v in c0.items && v !in c.items && x in c.items
    ensures v in used && x in used && used[v] < used[x]
  {
    assert v in c0.order && x in c.order && v !in c.order;
    var i :| 0 <= i < |c.order| && c.order[i] == x;
    assert v in c0.order[|c.order|..];
    var j :| |c.order| <= j < |c0.order| && c0.order[j] == v;
    assert c0.order[i] == x;
  }

  // ---------------------------------------------------------------- the object

  const DEFAULT_BYTES := 536870912

  class SegCache {
    const maxBytes: int
    var curBytes: int
    var ll: seq<string>
    var items: map<string, seq<byte>>

    ghost function View(): Lru
      reads this
    {
      Lru(ll, items, curBytes, maxBytes)
    }

    constructor (maxBytes: int)
      ensures View() == Empty(if maxBytes == 0 then DEFAULT_BYTES else maxBytes).c && Consistent(View())
    {
      this.maxBytes := if maxBytes == 0 then DEFAULT_BYTES else maxBytes;
      curBytes, ll, items := 0, [], map[];
    }

    method Get(key: string) returns (data: seq<byte>, hit: bool)
      requires Consistent(View())
      modifies this
      ensures View() == Got(old(View()), key) && hit == (key in items) && (hit ==> data == items[key])
    {
      if key in items {
        ll := Front(ll, key);
        return items[key], true;
      }
      return [], false;
    }

    method Put(key: string, data: seq<byte>)
      requires Consistent(View())
      modifies this
      ensures View() == Trimmed(Inserted(old(View()), key, data)) && Consistent(View())
    {
      InsertedConsistent(View(), key, data);
      curBytes := curBytes + |data| - if key in items then |items[key]| else 0;
      ll := Front(ll, key);
      items := items[key := data];
      EvictToBudget();
    }

    method EvictToBudget()
      requires Consistent(View())
      modifies this
      ensures View() == Trimmed(old(View())) && Consistent(View())
    {
      while curBytes > maxBytes && |ll| > 1
        invariant Consistent(View()) && Trimmed(View()) == Trimmed(old(View()))
        decreases |ll|
      {
        BackDroppedConsistent(View());
        var back := ll[|ll| - 1];
        curBytes := curBytes - |items[back]|;
        ll := ll[..|ll| - 1];
        items := items - {back};
      }
    }

    method PurgePrefix(prefix: string)
      requires Consistent(View())
      modifies this
      ensures View() == PrefixPurged(old(View()), prefix)
    {
      ghost var c0, gone: set<string> := View(), {};
      MinusNone(c0);
      var todo := items.Keys;
      while todo != {}
        invariant Purging(c0, prefix, todo, gone)
        invariant View() == Minus(c0, gone)
      {
        var k := Pick(todo);
        PurgingNext(c0, prefix, todo, gone, k);
        if HasPrefix(k, prefix) {
          Drop(k, c0, gone);
          gone := gone + {k};
        }
        todo := todo - {k};
      }
      assert gone == Matching(c0, prefix);
    }

    method Drop(k: string, ghost c0: Lru, ghost gone: set<string>)
      requires View() == Minus(c0, gone) && k in items
      modifies this
      ensures View() == Minus(c0, gone + {k})
    {
      MinusOne(c0, gone, k);
      curBytes := curBytes - |items[k]|;
      ll := Without(ll, {k});
      items := items - {k};
    }
  }

  /** `c` with some keys taken out. */
  ghost function Minus(c: Lru, gone: set<string>): Lru {
    Lru(Without(c.order, gone), c.items - gone, SumBy(c.items - gone, Bytes()), c.max)
  }

  /** Of the keys no longer to do, exactly the matching ones are gone. */
  ghost predicate Purging(c: Lru, prefix: string, todo: set<string>, gone: set<string>) {
    todo <= c.items.Keys && gone == Matching(c, prefix) - todo
  }

  lemma PurgingNext(c: Lru, prefix: string, todo: set<string>, gone: set<string>, k: string)
    requires Purging(c, prefix, todo, gone) && k in todo
    ensures k in c.items - gone && Purging(c, prefix, todo - {k}, if HasPrefix(k, prefix) then gone + {k} else gone)
  {
  }

  lemma MinusNone(c: Lru)
    requires Consistent(c)
    ensures Minus(c, {}) == c
  {
    WithoutNone(c.order);
    assert c.items - {} == c.items;
  }

  lemma MinusOne(c: Lru, gone: set<string>, k: string)
    requires k in c.items && k !in gone
    ensures var m := Minus(c, gone);
            Minus(c, gone + {k}) == Lru(Without(m.order, {k}), m.items - {k}, m.cur - |m.items[k]|, c.max)
  {
    SumByRemove(c.items - gone, Bytes(), k);
    assert c.items - gone - {k} == c.items - (gone + {k});
    WithoutTwice(c.order, gone, k);
  }

  lemma {:induction false} WithoutNone(s: seq<string>)
    ensures Without(s, {}) == s
    decreases |s|
  {
    if s != [] {
      WithoutNone(s[1..]);
    }
  }

  lemma {:induction false} WithoutTwice(s: seq<string>, dead: set<string>, k: string)
    ensures Without(Without(s, dead), {k}) == Without(s, dead + {k})
    decreases |s|
  {
    if s != [] {
      WithoutTwice(s[1..], dead, k);
      if s[0] !in dead {
        assert ([s[0]] + Without(s[1..], dead))[1..] == Without(s[1..], dead);
      }
    }
  }
}
