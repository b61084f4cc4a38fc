/**
 The byte ledger under every interleaving (storage/piece.go, storage/cache.go, storage/storage.go).

 A write is three separate critical sections: fetch the piece, land the bytes in it, tell the cache;
 a fourth tells the global accountant. Evictions, invalidations, reloads and teardown run between any
 two of them. Each section is one step of this machine. A cache is named by its object identity, so a
 torrent that is dropped and added again is a different cache.
 */
module Ledger {
  import opened Common
  import opened MemPieces
  import opened Windows
  import opened Caches

  type CacheId = nat

  /** What a goroutine holding a piece is about to put into it. */
  datatype Payload = Chunk(p: seq<byte>, off: nat) | Disk(src: seq<byte>)

  /** What a goroutine still has to do. */
  datatype Task =
    | Hold(h: CacheId, idx: int, id: nat, size: nat, load: Payload)
    | Landed(h: CacheId, n: nat)
    | Delta(d: int)
    | Victim(h: CacheId, idx: int, id: nat)

  /**
   `drift` and `globalDrift` are history variables: how far each level of the ledger has come apart.
   `released` counts, per piece identity, how often its buffer was given back.
   */
  datatype Acct = Acct(c: CacheSt, drift: int)

  datatype State = State(caches: map<CacheId, Acct>, global: int, globalDrift: int,
                         tasks: map<nat, Task>, released: multiset<(CacheId, nat)>)

  datatype Step =
    | Open(h: CacheId, sh: Shape)
    | Fetch(t: nat, h: CacheId, idx: int, size: nat, load: Payload, now: nat)
    | Land(t: nat, raced: bool, now: nat)
    | Report(t: nat)
    | Settle(t: nat)
    | Complete(h: CacheId, idx: int, now: nat)
    | Collect(t: nat, h: CacheId, idx: int)
    | Evict(t: nat)
    | Invalidate(t: nat, h: CacheId, idx: int)
    | Close(t: nat, h: CacheId)
    | SetReader(h: CacheId, r: nat, st: ReaderSt)
    | DropReader(h: CacheId, r: nat)

  const Init := State(map[], 0, 0, map[], multiset{})

  // ---------------------------------------------------------------- landing

  predicate Resident(c: CacheSt, idx: int, id: nat) {
    idx in c.pieces && c.pieces[idx].id == id
  }

  /** The piece the bytes reach: the one in the map, or a detached one of the same size. */
  function Target(c: CacheSt, t: Task): Mem
    requires t.Hold?
  {
    if Resident(c, t.idx, t.id) then c.pieces[t.idx].mem else Fresh(t.size, 0)
  }

  /** Bytes placed; a reload places nothing if the piece got a buffer first. */
  function Placed(c: CacheSt, t: Task, raced: bool): nat
    requires t.Hold?
  {
    match t.load
    case Chunk(p, off) => Landing(Target(c, t), |p|, off)
    case Disk(src) => if Target(c, t).data.Some? || (!Resident(c, t.idx, t.id) && raced) then 0 else |src|
  }

  /** A short write returns an error, and an error is never reported to the cache. */
  predicate Fits(c: CacheSt, t: Task)
    requires t.Hold?
  {
    t.load.Chunk? ==> t.load.off < |Buffer(Target(c, t))| && Landing(Target(c, t), |t.load.p|, t.load.off) == |t.load.p|
  }

  function AfterLanding(m: Mem, load: Payload, now: nat): Mem {
    match load
    case Chunk(p, off) => Written(m, p, off, now)
    case Disk(src) => Loaded(m, src, now)
  }

  function ReportedBytes(c: CacheSt, t: Task, raced: bool): nat
    requires t.Hold?
  {
    if Fits(c, t) then Placed(c, t, raced) else 0
  }

  function LandIn(a: Acct, t: Task, raced: bool, now: nat): Acct
    requires t.Hold?
  {
    var resident := Resident(a.c, t.idx, t.id);
    var pieces := if resident then a.c.pieces[t.idx := Slot(t.id, AfterLanding(a.c.pieces[t.idx].mem, t.load, now))] else a.c.pieces;
    Acct(a.c.(pieces := pieces),
         a.drift + ReportedBytes(a.c, t, raced) - if resident then Placed(a.c, t, raced) else 0)
  }

  // ---------------------------------------------------------------- the machine

  function WithTask(s: State, t: nat, task: Task): State { s.(tasks := s.tasks[t := task]) }

  function WithoutTask(s: State, t: nat): State { s.(tasks := s.tasks - {t}) }

  function WithCache(s: State, h: CacheId, c: CacheSt): State
    requires h in s.caches
  {
    s.(caches := s.caches[h := s.caches[h].(c := c)])
  }

  /** Identities given back when `c` becomes `c'`. */
  function Gone(h: CacheId, c: CacheSt, c': CacheSt): set<(CacheId, nat)> {
    set i | i in c.pieces && i !in c'.pieces :: (h, c.pieces[i].id)
  }

  /** Cache `h` becomes `c`, giving back what it lost, and the freed bytes wait to be settled globally. */
  function Release(s: State, t: nat, h: CacheId, c: CacheSt, freed: int): State
    requires h in s.caches
  {
    WithTask(WithCache(s, h, c), t, Delta(-freed)).(released := s.released + multiset(Gone(h, s.caches[h].c, c)))
  }

  ghost function Next(s: State, step: Step): State {
    match step
    case Open(h, sh) => if h in s.caches then s else s.(caches := s.caches[h := Acct(Opened(sh), 0)])
    case Fetch(t, h, idx, size, load, now) =>
      if t in s.tasks || h !in s.caches then s
      else
        var (c, slot) := Acquired(s.caches[h].c, idx, size, now);
        WithTask(WithCache(s, h, c), t, Hold(h, idx, slot.id, slot.mem.size, load))
    case Land(t, raced, now) =>
      if !(t in s.tasks && s.tasks[t].Hold? && s.tasks[t].h in s.caches) then s
      else
        var task := s.tasks[t];
        var a := s.caches[task.h];
        var s' := s.(caches := s.caches[task.h := LandIn(a, task, raced, now)]);
        if ReportedBytes(a.c, task, raced) > 0 then WithTask(s', t, Landed(task.h, ReportedBytes(a.c, task, raced)))
        else WithoutTask(s', t)
    case Report(t) =>
      if !(t in s.tasks && s.tasks[t].Landed? && s.tasks[t].h in s.caches) then s
      else
        var Landed(h, n) := s.tasks[t];
        var s' := WithCache(s, h, Caches.Reported(s.caches[h].c, n));
        if s.caches[h].c.closed then WithoutTask(s', t) else WithTask(s', t, Delta(n))
    case Settle(t) =>
      if t in s.tasks && s.tasks[t].Delta? then WithoutTask(s, t).(global := s.global + s.tasks[t].d) else s
    case Complete(h, idx, now) =>
      if !(h in s.caches && idx in s.caches[h].c.pieces) then s
      else
        var c := s.caches[h].c;
        WithCache(s, h, c.(pieces := c.pieces[idx := Slot(c.pieces[idx].id, Completed(c.pieces[idx].mem, now))]))
    case Collect(t, h, idx) =>
      if t in s.tasks || h !in s.caches || !Evictable(s.caches[h].c, Guard(s.caches[h].c), idx) then s
      else WithTask(s, t, Victim(h, idx, s.caches[h].c.pieces[idx].id))
    case Evict(t) =>
      if !(t in s.tasks && s.tasks[t].Victim? && s.tasks[t].h in s.caches) then s
      else
        var Victim(h, idx, id) := s.tasks[t];
        var (c, freed) := Evicted(s.caches[h].c, Guard(s.caches[h].c), idx, id);
        Release(s, t, h, c, freed)
    case Invalidate(t, h, idx) =>
      if t in s.tasks || h !in s.caches then s
      else
        var (c, freed) := Invalidated(s.caches[h].c, idx);
        Release(s, t, h, c, freed)
    case Close(t, h) =>
      if t in s.tasks || h !in s.caches then s
      else
        var a := s.caches[h];
        var (c, freed) := Closed(a.c);
        Release(s, t, h, c, freed).(globalDrift := s.globalDrift + a.c.filled - freed)
    case SetReader(h, r, st) =>
      if h !in s.caches then s else WithCache(s, h, s.caches[h].c.(readers := s.caches[h].c.readers[r := st]))
    case DropReader(h, r) =>
      if h !in s.caches then s else WithCache(s, h, s.caches[h].c.(readers := s.caches[h].c.readers - {r}))
  }

  ghost function Run(s: State, steps: seq<Step>): State
    decreases |steps|
  {
    if steps == [] then s else Run(Next(s, steps[0]), steps[1..])
  }

  // ---------------------------------------------------------------- the law

  function FlightTo(h: CacheId): Task -> int { (t: Task) => if t.Landed? && t.h == h then t.n else 0 }

  function DeltaOf(): Task -> int { (t: Task) => if t.Delta? then t.d else 0 }

  function FilledOf(): Acct -> int { (a: Acct) => a.c.filled }

  /** Bytes landed for cache `h` that it has not been told about. */
  ghost function InFlight(s: State, h: CacheId): int { SumBy(s.tasks, FlightTo(h)) }

  /** Changes some cache has booked that the global accountant has not. */
  ghost function Pending(s: State): int { SumBy(s.tasks, DeltaOf()) }

  ghost function TotalFilled(s: State): int { SumBy(s.caches, FilledOf()) }

  ghost predicate CacheLaw(s: State, h: CacheId)
    requires h in s.caches
  {
    var a := s.caches[h];
    if a.c.closed then a.c.pieces == map[] && a.c.filled == 0
    else a.c.filled + InFlight(s, h) == ResidentBytes(a.c) + a.drift
  }

  ghost predicate GlobalLaw(s: State) {
    && s.global + Pending(s) == TotalFilled(s) + s.globalDrift
    && (forall t :: t in s.tasks && s.tasks[t].Landed? ==> s.tasks[t].h in s.caches)
  }

  ghost predicate Law(s: State) {
    (forall h :: h in s.caches ==> CacheLaw(s, h)) && GlobalLaw(s)
  }

  lemma TaskChange(s: State, t: nat, task: Task, h: CacheId)
    ensures InFlight(WithTask(s, t, task), h) ==
            InFlight(s, h) + FlightTo(h)(task) - if t in s.tasks then FlightTo(h)(s.tasks[t]) else 0
    ensures Pending(WithTask(s, t, task)) ==
            Pending(s) + DeltaOf()(task) - if t in s.tasks then DeltaOf()(s.tasks[t]) else 0
  {
    SumByUpdate(s.tasks, FlightTo(h), t, task);
    SumByUpdate(s.tasks, DeltaOf(), t, task);
  }

  lemma TaskEnd(s: State, t: nat, h: CacheId)
    requires t in s.tasks
    ensures InFlight(WithoutTask(s, t), h) == InFlight(s, h) - FlightTo(h)(s.tasks[t])
    ensures Pending(WithoutTask(s, t)) == Pending(s) - DeltaOf()(s.tasks[t])
  {
    SumByRemove(s.tasks, FlightTo(h), t);
    SumByRemove(s.tasks, DeltaOf(), t);
  }

  lemma CacheChange(s: State, h: CacheId, a: Acct)
    requires h in s.caches
    ensures TotalFilled(s.(caches := s.caches[h := a])) == TotalFilled(s) + a.c.filled - s.caches[h].c.filled
  {
    SumByUpdate(s.caches, FilledOf(), h, a);
  }

  lemma FetchKeepsLaw(s: State, t: nat, h: CacheId, idx: int, size: nat, load: Payload, now: nat)
    requires Law(s)
    ensures Law(Next(s, Fetch(t, h, idx, size, load, now)))
  {
    if t !in s.tasks && h in s.caches {
      var a := s.caches[h];
      var (c, slot) := Acquired(a.c, idx, size, now);
      var s1 := WithCache(s, h, c);
      var task := Hold(h, idx, slot.id, slot.mem.size, load);
      SumByUpdate(a.c.pieces, Accounted(), idx, slot);
      CacheChange(s, h, a.(c := c));
      TaskChange(s1, t, task, h);
      forall g | g in s.caches ensures CacheLaw(WithTask(s1, t, task), g) {
        TaskChange(s1, t, task, g);
      }
    }
  }

  /** The goroutine that held a piece moves on, with `n` bytes for cache `h` in flight if any. */
  function AfterHold(s: State, t: nat, h: CacheId, n: nat): State {
    if n > 0 then WithTask(s, t, Landed(h, n)) else WithoutTask(s, t)
  }

  lemma HoldEnds(s: State, t: nat, h: CacheId, n: nat, g: CacheId)
    requires t in s.tasks && s.tasks[t].Hold?
    ensures InFlight(AfterHold(s, t, h, n), g) == InFlight(s, g) + if g == h then n else 0
    ensures Pending(AfterHold(s, t, h, n)) == Pending(s)
  {
    if n > 0 {
      TaskChange(s, t, Landed(h, n), g);
    } else {
      TaskEnd(s, t, g);
    }
  }

  /** Landing moves bytes into the piece and, if reported, into flight; the difference is drift. */
  lemma LandKeepsLaw(s: State, t: nat, raced: bool, now: nat)
    requires Law(s)
    ensures Law(Next(s, Land(t, raced, now)))
  {
    if t in s.tasks && s.tasks[t].Hold? && s.tasks[t].h in s.caches {
      var task := s.tasks[t];
      var h, a, n := task.h, s.caches[task.h], ReportedBytes(s.caches[task.h].c, task, raced);
      LandedBytes(a, task, raced, now);
      LandBalances(s, t, h, LandIn(a, task, raced, now), n);
    }
  }

  ghost predicate LandsAs(a: Acct, a': Acct, n: nat) {
    && ResidentBytes(a'.c) + a'.drift == ResidentBytes(a.c) + a.drift + n
    && a'.c.filled == a.c.filled && a'.c.closed == a.c.closed && (a.c.pieces == map[] ==> a'.c.pieces == map[])
  }

  lemma LandCacheLaw(s: State, t: nat, h: CacheId, a': Acct, n: nat, g: CacheId)
    requires Law(s) && t in s.tasks && s.tasks[t].Hold? && h in s.caches && g in s.caches && LandsAs(s.caches[h], a', n)
    ensures CacheLaw(AfterHold(s.(caches := s.caches[h := a']), t, h, n), g)
  {
    var s1 := s.(caches := s.caches[h := a']);
    HoldEnds(s1, t, h, n, g);
    assert InFlight(s1, g) == InFlight(s, g);
    assert CacheLaw(s, g);
  }

  lemma LandGlobalLaw(s: State, t: nat, h: CacheId, a': Acct, n: nat)
    requires GlobalLaw(s) && t in s.tasks && s.tasks[t].Hold? && h in s.caches && a'.c.filled == s.caches[h].c.filled
    ensures GlobalLaw(AfterHold(s.(caches := s.caches[h := a']), t, h, n))
  {
    var s1 := s.(caches := s.caches[h := a']);
    CacheChange(s, h, a');
    HoldEnds(s1, t, h, n, h);
  }

  lemma LandBalances(s: State, t: nat, h: CacheId, a': Acct, n: nat)
    requires Law(s) && t in s.tasks && s.tasks[t].Hold? && h in s.caches && LandsAs(s.caches[h], a', n)
    ensures Law(AfterHold(s.(caches := s.caches[h := a']), t, h, n))
  {
    var s' := AfterHold(s.(caches := s.caches[h := a']), t, h, n);
    LandGlobalLaw(s, t, h, a', n);
    forall g | g in s'.caches ensures CacheLaw(s', g) {
      LandCacheLaw(s, t, h, a', n, g);
    }
  }

  lemma LandedBytes(a: Acct, t: Task, raced: bool, now: nat)
    requires t.Hold?
    ensures LandsAs(a, LandIn(a, t, raced, now), ReportedBytes(a.c, t, raced))
  {
    if Resident(a.c, t.idx, t.id) {
      var m := a.c.pieces[t.idx].mem;
      assert AfterLanding(m, t.load, now).accounted == m.accounted + Placed(a.c, t, raced);
      SumByUpdate(a.c.pieces, Accounted(), t.idx, Slot(t.id, AfterLanding(m, t.load, now)));
    }
  }

  function AfterReport(s: State, t: nat, n: int, add: bool): State {
    if add then WithTask(s, t, Delta(n)) else WithoutTask(s, t)
  }

  lemma ReportEnds(s: State, t: nat, add: bool, g: CacheId)
    requires t in s.tasks && s.tasks[t].Landed?
    ensures var n := s.tasks[t].n;
            && InFlight(AfterReport(s, t, n, add), g) == InFlight(s, g) - (if g == s.tasks[t].h then n else 0)
            && Pending(AfterReport(s, t, n, add)) == Pending(s) + if add then n else 0
  {
    if add {
      TaskChange(s, t, Delta(s.tasks[t].n), g);
    } else {
      TaskEnd(s, t, g);
    }
  }

  lemma ReportKeepsLaw(s: State, t: nat)
    requires Law(s)
    ensures Law(Next(s, Report(t)))
  {
    if t in s.tasks && s.tasks[t].Landed? && s.tasks[t].h in s.caches {
      var Landed(h, n) := s.tasks[t];
      var a := s.caches[h];
      var s1 := WithCache(s, h, Caches.Reported(a.c, n));
      CacheChange(s, h, a.(c := Caches.Reported(a.c, n)));
      ReportEnds(s1, t, !a.c.closed, h);
      forall g | g in s.caches ensures CacheLaw(Next(s, Report(t)), g) {
        ReportEnds(s1, t, !a.c.closed, g);
        assert InFlight(s1, g) == InFlight(s, g);
      }
    }
  }

  lemma SettleKeepsLaw(s: State, t: nat)
    requires Law(s)
    ensures Law(Next(s, Settle(t)))
  {
    if t in s.tasks && s.tasks[t].Delta? {
      forall g | g in s.caches ensures CacheLaw(Next(s, Settle(t)), g) {
        TaskEnd(s, t, g);
      }
      TaskEnd(s, t, 0);
    }
  }

  /** A cache may be replaced by one with the same books. */
  lemma RebookKeepsLaw(s: State, h: CacheId, c: CacheSt)
    requires Law(s) && h in s.caches
    requires c.filled == s.caches[h].c.filled && c.closed == s.caches[h].c.closed
    requires ResidentBytes(c) == ResidentBytes(s.caches[h].c) && (c.closed ==> c.pieces == map[])
    ensures Law(WithCache(s, h, c))
  {
    CacheChange(s, h, s.caches[h].(c := c));
    forall g | g in s.caches ensures CacheLaw(WithCache(s, h, c), g) {
    }
  }

  lemma CompleteKeepsLaw(s: State, h: CacheId, idx: int, now: nat)
    requires Law(s)
    ensures Law(Next(s, Complete(h, idx, now)))
  {
    if h in s.caches && idx in s.caches[h].c.pieces {
      var c := s.caches[h].c;
      var slot := Slot(c.pieces[idx].id, Completed(c.pieces[idx].mem, now));
      SumByUpdate(c.pieces, Accounted(), idx, slot);
      RebookKeepsLaw(s, h, c.(pieces := c.pieces[idx := slot]));
    }
  }

  lemma NewDelta(s: State, t: nat, d: int, g: CacheId)
    requires t in s.tasks ==> s.tasks[t].Victim?
    ensures InFlight(WithTask(s, t, Delta(d)), g) == InFlight(s, g)
    ensures Pending(WithTask(s, t, Delta(d))) == Pending(s) + d
  {
    TaskChange(s, t, Delta(d), g);
  }

  /** Giving a piece back keeps both levels in step, once the freed bytes are settled. */
  lemma ReleaseKeepsLaw(s: State, t: nat, h: CacheId, c: CacheSt, freed: int)
    requires Law(s) && h in s.caches && (t in s.tasks ==> s.tasks[t].Victim?)
    requires !s.caches[h].c.closed ==> !c.closed && c.filled == s.caches[h].c.filled - freed && ResidentBytes(c) == ResidentBytes(s.caches[h].c) - freed
    requires s.caches[h].c.closed ==> c == s.caches[h].c && freed == 0
    ensures Law(Release(s, t, h, c, freed))
  {
    var s1 := WithCache(s, h, c);
    CacheChange(s, h, s.caches[h].(c := c));
    NewDelta(s1, t, -freed, h);
    forall g | g in s.caches ensures CacheLaw(Release(s, t, h, c, freed), g) {
      NewDelta(s1, t, -freed, g);
      assert InFlight(s1, g) == InFlight(s, g);
    }
  }

  lemma DroppedBooks(c: CacheSt, idx: int)
    requires idx in c.pieces
    ensures ResidentBytes(Dropped(c, idx)) == ResidentBytes(c) - c.pieces[idx].mem.accounted
  {
    SumByRemove(c.pieces, Accounted(), idx);
  }

  lemma EvictKeepsLaw(s: State, t: nat)
    requires Law(s)
    ensures Law(Next(s, Evict(t)))
  {
    if t in s.tasks && s.tasks[t].Victim? && s.tasks[t].h in s.caches {
      var Victim(h, idx, id) := s.tasks[t];
      var (c, freed) := Evicted(s.caches[h].c, Guard(s.caches[h].c), idx, id);
      if idx in s.caches[h].c.pieces {
        DroppedBooks(s.caches[h].c, idx);
      }
      ReleaseKeepsLaw(s, t, h, c, freed);
    }
  }

  lemma InvalidateKeepsLaw(s: State, t: nat, h: CacheId, idx: int)
    requires Law(s)
    ensures Law(Next(s, Invalidate(t, h, idx)))
  {
    if t !in s.tasks && h in s.caches {
      var (c, freed) := Invalidated(s.caches[h].c, idx);
      if idx in s.caches[h].c.pieces {
        DroppedBooks(s.caches[h].c, idx);
      }
      ReleaseKeepsLaw(s, t, h, c, freed);
    }
  }

  lemma CloseKeepsLaw(s: State, t: nat, h: CacheId)
    requires Law(s)
    ensures Law(Next(s, Close(t, h)))
  {
    if t !in s.tasks && h in s.caches {
      var (c, freed) := Closed(s.caches[h].c);
      EmptyingBalances(s, t, h, c, freed);
    }
  }

  lemma EmptyingBalances(s: State, t: nat, h: CacheId, c: CacheSt, freed: int)
    requires Law(s) && t !in s.tasks && h in s.caches && c.closed && c.pieces == map[] && c.filled == 0
    ensures Law(Release(s, t, h, c, freed).(globalDrift := s.globalDrift + s.caches[h].c.filled - freed))
  {
    var s1 := WithCache(s, h, c);
    var s' := Release(s, t, h, c, freed).(globalDrift := s.globalDrift + s.caches[h].c.filled - freed);
    CacheChange(s, h, s.caches[h].(c := c));
    NewDelta(s1, t, -freed, h);
    forall g | g in s.caches ensures CacheLaw(s', g) {
      NewDelta(s1, t, -freed, g);
      assert InFlight(s1, g) == InFlight(s, g);
    }
  }

  lemma OpenKeepsLaw(s: State, h: CacheId, sh: Shape)
    requires Law(s)
    ensures Law(Next(s, Open(h, sh)))
  {
    if h !in s.caches {
      SumByUpdate(s.caches, FilledOf(), h, Acct(Opened(sh), 0));
      assert InFlight(s, h) == 0 by {
        NothingInFlight(s.tasks, h);
      }
    }
  }

  lemma {:induction false} NothingInFlight(tasks: map<nat, Task>, h: CacheId)
    requires forall t :: t in tasks && tasks[t].Landed? ==> tasks[t].h != h
    ensures SumBy(tasks, FlightTo(h)) == 0
    decreases |tasks|
  {
    if tasks != map[] {
      var t :| t in tasks;
      SumByRemove(tasks, FlightTo(h), t);
      NothingInFlight(tasks - {t}, h);
    }
  }

  lemma NextKeepsLaw(s: State, step: Step)
    requires Law(s)
    ensures Law(Next(s, step))
  {
    match step
    case Open(h, sh) => OpenKeepsLaw(s, h, sh);
    case Fetch(t, h, idx, size, load, now) => FetchKeepsLaw(s, t, h, idx, size, load, now);
    case Land(t, raced, now) => LandKeepsLaw(s, t, raced, now);
    case Report(t) => ReportKeepsLaw(s, t);
    case Settle(t) => SettleKeepsLaw(s, t);
    case Complete(h, idx, now) => CompleteKeepsLaw(s, h, idx, now);
    case Collect(t, h, idx) =>
      if t !in s.tasks && h in s.caches && Evictable(s.caches[h].c, Guard(s.caches[h].c), idx) {
        var task := Victim(h, idx, s.caches[h].c.pieces[idx].id);
        forall g | g in s.caches ensures CacheLaw(WithTask(s, t, task), g) {
          TaskChange(s, t, task, g);
        }
        TaskChange(s, t, task, h);
      }
    case Evict(t) => EvictKeepsLaw(s, t);
    case Invalidate(t, h, idx) => InvalidateKeepsLaw(s, t, h, idx);
    case Close(t, h) => CloseKeepsLaw(s, t, h);
    case SetReader(h, r, st) =>
      if h in s.caches { RebookKeepsLaw(s, h, s.caches[h].c.(readers := s.caches[h].c.readers[r := st])); }
    case DropReader(h, r) =>
      if h in s.caches { RebookKeepsLaw(s, h, s.caches[h].c.(readers := s.caches[h].c.readers - {r})); }
  }

  lemma {:induction false} RunKeepsLaw(s: State, steps: seq<Step>)
    requires Law(s)
    ensures Law(Run(s, steps))
    decreases |steps|
  {
    if steps != [] {
      NextKeepsLaw(s, steps[0]);
      RunKeepsLaw(Next(s, steps[0]), steps[1..]);
    }
  }
}
