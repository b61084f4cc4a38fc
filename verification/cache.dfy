/**
 One torrent's piece cache (storage/cache.go). `CacheSt` and the functions on it say what each
 lock-held section does; class `Cache` is the object, each method proved against its function.
 A slot pairs a piece with an identity, so a handle to a piece that has since been replaced is
 distinguishable from the piece now in the map.
 */
module Caches {
  import opened Common
  import opened MemPieces
  import opened Windows

  datatype Slot = Slot(id: nat, mem: Mem)

  datatype CacheSt = CacheSt(sh: Shape, pieces: map<int, Slot>, readers: map<nat, ReaderSt>,
                             filled: int, closed: bool, nextId: nat)

  datatype Cand = Cand(idx: int, id: nat, accessed: nat)

  function Accounted(): Slot -> int { (s: Slot) => s.mem.accounted }

  ghost function ResidentBytes(c: CacheSt): int { SumBy(c.pieces, Accounted()) }

  function Opened(sh: Shape): CacheSt { CacheSt(sh, map[], map[], 0, false, 0) }

  /** The piece a caller gets for `idx`; in a closed cache it is detached and never enters the map. */
  function Acquired(c: CacheSt, idx: int, size: nat, now: nat): (CacheSt, Slot) {
    if !c.closed && idx in c.pieces then (c, c.pieces[idx])
    else
      var slot := Slot(c.nextId, Fresh(size, now));
      (c.(nextId := c.nextId + 1, pieces := if c.closed then c.pieces else c.pieces[idx := slot]), slot)
  }

  /** Takes a resident piece out of the map and out of the ledger. */
  function Dropped(c: CacheSt, idx: int): CacheSt
    requires idx in c.pieces
  {
    c.(pieces := c.pieces - {idx}, filled := c.filled - c.pieces[idx].mem.accounted)
  }

  function Invalidated(c: CacheSt, idx: int): (CacheSt, int) {
    if c.closed || idx !in c.pieces then (c, 0) else (Dropped(c, idx), c.pieces[idx].mem.accounted)
  }

  function Reported(c: CacheSt, n: int): CacheSt {
    if c.closed then c else c.(filled := c.filled + n)
  }

  /** The pieces registered readers keep out of eviction. */
  ghost function Guard(c: CacheSt): set<int> {
    if ValidShape(c.sh) then Protected(c.readers, c.sh) else {}
  }

  /** May this piece be evicted, when readers guard `guard`? */
  predicate Evictable(c: CacheSt, guard: set<int>, idx: int) {
    !c.closed && idx in c.pieces && IsComplete(c.pieces[idx].mem) && idx !in guard
  }

  function Evicted(c: CacheSt, guard: set<int>, idx: int, id: nat): (CacheSt, int) {
    if Evictable(c, guard, idx) && c.pieces[idx].id == id then (Dropped(c, idx), c.pieces[idx].mem.accounted) else (c, 0)
  }

  ghost function Closed(c: CacheSt): (CacheSt, int) {
    (c.(closed := true, pieces := map[], filled := 0), ResidentBytes(c))
  }

  /** One more reader guards what it protects, and takes nothing from the others. */
  lemma GuardGrows(c: CacheSt, r: nat, st: ReaderSt)
    requires ValidShape(c.sh) && r !in c.readers
    ensures Guard(c.(readers := c.readers[r := st])) == Guard(c) + Protects(st, c.sh)
  {
    var all := c.readers[r := st];
    forall i ensures i in Protected(all, c.sh) <==> i in Protected(c.readers, c.sh) || i in Protects(st, c.sh) {
      if i in Protected(c.readers, c.sh) {
        var q :| q in c.readers && i in Protects(c.readers[q], c.sh);
        assert all[q] == c.readers[q];
      }
      if i in Protects(st, c.sh) {
        assert all[r] == st;
      }
    }
  }

  class Cache {
    const sh: Shape
    var pieces: map<int, Slot>
    var readers: map<nat, ReaderSt>
    var filled: int
    var closed: bool
    var nextId: nat

    ghost function View(): CacheSt
      reads this
    {
      CacheSt(sh, pieces, readers, filled, closed, nextId)
    }

    constructor (sh: Shape)
      ensures View() == Opened(sh)
    {
      this.sh := sh;
      pieces, readers, filled, closed, nextId := map[], map[], 0, false, 0;
    }

    method GetOrCreateMemPiece(idx: int, size: nat, now: nat) returns (slot: Slot)
      modifies this
      ensures (View(), slot) == Acquired(old(View()), idx, size, now)
    {
      if closed {
        slot := Slot(nextId, Fresh(size, now));
        nextId := nextId + 1;
        return;
      }
      if idx !in pieces {
        pieces := pieces[idx := Slot(nextId, Fresh(size, now))];
        nextId := nextId + 1;
      }
      slot := pieces[idx];
    }

    method MarkNotComplete(idx: int) returns (freed: int)
      modifies this
      ensures (View(), freed) == Invalidated(old(View()), idx)
    {
      freed := 0;
      if !closed && idx in pieces {
        freed := pieces[idx].mem.accounted;
        filled := filled - freed;
        pieces := pieces - {idx};
      }
    }

    method UpdateFilled(n: int) returns (add: bool)
      modifies this
      ensures View() == Reported(old(View()), n) && add == !closed
    {
      add := !closed;
      if add {
        filled := filled + n;
      }
    }

    method GetReaderWindows() returns (protected: set<int>)
      requires ValidShape(sh)
      ensures protected == Protected(readers, sh) && GuardsNeeds(protected, readers, sh)
    {
      protected := {};
      var todo := readers.Keys;
      while todo != {}
        invariant todo <= readers.Keys
        invariant forall i :: i in protected <==> exists r :: r in readers && r !in todo && i in Protects(readers[r], sh)
      {
        var r := Pick(todo);
        ghost var before := protected;
        var (start, end) := ActiveWindow(readers[r], sh);
        var fs, fe := FileStartPiece(readers[r], sh.pieceLen), FileEndPiece(readers[r], sh.pieceLen);
        protected := AddSpan(protected, start, end);
        protected := AddSpan(protected, fs, Min(fs + 2, fe));
        if fe - 2 >= fs {
          protected := AddSpan(protected, fe - 2, fe);
        }
        assert protected == before + Protects(readers[r], sh);
        todo := todo - {r};
      }
      assert forall i :: i in protected <==> i in Protected(readers, sh);
      NeedsAreGuarded(readers, sh);
    }

    static method AddSpan(s: set<int>, lo: int, hi: int) returns (r: set<int>)
      ensures r == s + Span(lo, hi)
    {
      r := s;
      var i := lo;
      while i <= hi
        invariant lo <= i && (i <= hi + 1 || i == lo)
        invariant r == s + Span(lo, i - 1)
      {
        r := r + {i};
        i := i + 1;
      }
    }

    /** Every evictable piece once, in any order. */
    method CollectEvictCandidates() returns (out: seq<Cand>)
      requires ValidShape(sh)
      ensures forall e :: e in out <==>
                Evictable(View(), Guard(View()), e.idx) && e == Cand(e.idx, pieces[e.idx].id, pieces[e.idx].mem.accessed)
      ensures forall i, j :: 0 <= i < j < |out| ==> out[i].idx != out[j].idx
    {
      out := [];
      if closed {
        return;
      }
      var protected := GetReaderWindows();
      var todo := pieces.Keys;
      while todo != {}
        invariant todo <= pieces.Keys
        invariant forall e :: e in out <==>
          e.idx !in todo && Evictable(View(), Guard(View()), e.idx) && e == Cand(e.idx, pieces[e.idx].id, pieces[e.idx].mem.accessed)
        invariant forall i, j :: 0 <= i < j < |out| ==> out[i].idx != out[j].idx
      {
        var idx := Pick(todo);
        if idx !in protected && IsComplete(pieces[idx].mem) {
          assert forall i :: 0 <= i < |out| ==> out[i] in out && out[i].idx != idx;
          out := out + [Cand(idx, pieces[idx].id, pieces[idx].mem.accessed)];
        }
        todo := todo - {idx};
      }
    }

    /** Evicts a collected piece after re-checking, under the lock, everything the collection assumed. */
    method EvictPiece(idx: int, id: nat) returns (size: int)
      requires ValidShape(sh)
      modifies this
      ensures (View(), size) == Evicted(old(View()), Guard(old(View())), idx, id)
    {
      size := 0;
      if closed {
        return;
      }
      if idx !in pieces || pieces[idx].id != id || !IsComplete(pieces[idx].mem) {
        return;
      }
      var protected := GetReaderWindows();
      if idx in protected {
        return;
      }
      size := pieces[idx].mem.accounted;
      filled := filled - size;
      pieces := pieces - {idx};
    }

    method Close() returns (released: int)
      modifies this
      ensures (View(), released) == Closed(old(View()))
    {
      closed := true;
      released := 0;
      var rest := pieces;
      while rest != map[]
        invariant closed && pieces == old(pieces) && readers == old(readers) && nextId == old(nextId)
        invariant released + SumBy(rest, Accounted()) == SumBy(pieces, Accounted())
        decreases |rest|
      {
        var idx := Pick(rest.Keys);
        SumByRemove(rest, Accounted(), idx);
        released := released + rest[idx].mem.accounted;
        rest := rest - {idx};
      }
      pieces, filled := map[], 0;
    }

    method RegisterReader(r: nat, st: ReaderSt)
      modifies this
      ensures View() == old(View()).(readers := old(readers)[r := st])
      ensures ValidShape(sh) && r !in old(readers) ==> Guard(View()) == Guard(old(View())) + Protects(st, sh)
    {
      ghost var before := View();
      readers := readers[r := st];
      if ValidShape(sh) && r !in before.readers {
        GuardGrows(before, r, st);
      }
    }

    method UnregisterReader(r: nat)
      modifies this
      ensures View() == old(View()).(readers := old(readers) - {r})
      ensures ValidShape(sh) && r in old(readers) ==> Guard(old(View())) == Guard(View()) + Protects(old(readers)[r], sh)
    {
      ghost var before := View();
      readers := readers - {r};
      if ValidShape(sh) && r in before.readers {
        GuardGrows(View(), r, before.readers[r]);
        assert readers[r := before.readers[r]] == before.readers;
      }
    }
  }
}
