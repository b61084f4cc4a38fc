/** What holds over whole runs of the storage machine. */
module LedgerRuns {
  import opened Common
  import opened MemPieces
  import opened Windows
  import opened Caches
  import opened Ledger

  // ---------------------------------------------------------------- conservation

  /**
   The exact law, for every run whatsoever: what a cache has booked and what is in flight to it is what
   its pieces hold plus its drift; the global total and what is pending is what the caches have booked
   plus the global drift; and a closed cache is empty and books nothing.
   */
  lemma {:induction false} LedgerLaw(steps: seq<Step>)
    ensures var s := Run(Init, steps);
            && (forall h :: h in s.caches && !s.caches[h].c.closed ==>
                  s.caches[h].c.filled + InFlight(s, h) == ResidentBytes(s.caches[h].c) + s.caches[h].drift)
            && (forall h :: h in s.caches && s.caches[h].c.closed ==> s.caches[h].c.pieces == map[] && s.caches[h].c.filled == 0)
            && s.global + Pending(s) == TotalFilled(s) + s.globalDrift
  {
    RunKeepsLaw(Init, steps);
    var s := Run(Init, steps);
    assert forall h :: h in s.caches ==> CacheLaw(s, h);
  }

  ghost predicate CanLand(s: State, t: nat) {
    t in s.tasks && s.tasks[t].Hold? && s.tasks[t].h in s.caches
  }

  /**
   Exactly when a landing leaves the cache's books straight: nothing was placed, or the piece was still
   in the map and the whole chunk fitted, or it was neither (a short write into a detached piece).
   */
  lemma LandKeepsBalanceIff(s: State, t: nat, raced: bool, now: nat)
    requires CanLand(s, t)
    ensures var task := s.tasks[t]; var a := s.caches[task.h];
            Next(s, Land(t, raced, now)).caches[task.h].drift == a.drift <==>
            Placed(a.c, task, raced) == 0 || (Resident(a.c, task.idx, task.id) <==> Fits(a.c, task))
  {
  }

  /** Exactly when teardown leaves the global books straight: nothing was in flight beyond the drift. */
  lemma CloseKeepsBalanceIff(s: State, t: nat, h: CacheId)
    requires Law(s) && t !in s.tasks && h in s.caches && !s.caches[h].c.closed
    ensures Next(s, Close(t, h)).globalDrift == s.globalDrift <==> InFlight(s, h) == s.caches[h].drift
  {
    assert CacheLaw(s, h);
  }

  /** The books of one cache agree with what it holds. */
  ghost predicate CacheBalanced(s: State, h: CacheId)
    requires h in s.caches
  {
    s.caches[h].c.closed || s.caches[h].c.filled + InFlight(s, h) == ResidentBytes(s.caches[h].c)
  }

  /** The books agree at both levels. */
  ghost predicate Balanced(s: State) {
    (forall h :: h in s.caches ==> CacheBalanced(s, h)) && s.global + Pending(s) == TotalFilled(s)
  }

  ghost predicate NoDrift(s: State) {
    s.globalDrift == 0 && forall h :: h in s.caches && !s.caches[h].c.closed ==> s.caches[h].drift == 0
  }

  lemma BalancedIffNoDrift(s: State)
    requires Law(s)
    ensures Balanced(s) <==> NoDrift(s)
  {
    forall h | h in s.caches ensures CacheBalanced(s, h) <==> s.caches[h].c.closed || s.caches[h].drift == 0 {
      assert CacheLaw(s, h);
    }
  }

  /** A landing that leaves the books of an open cache straight. */
  ghost predicate StraightLand(s: State, t: nat, raced: bool) {
    CanLand(s, t) && !s.caches[s.tasks[t].h].c.closed ==>
      var task := s.tasks[t]; var c := s.caches[task.h].c;
      Placed(c, task, raced) == 0 || (Resident(c, task.idx, task.id) <==> Fits(c, task))
  }

  /** A teardown that takes effect with nothing in flight, or has none. */
  ghost predicate StraightClose(s: State, t: nat, h: CacheId) {
    t !in s.tasks && h in s.caches && !s.caches[h].c.closed ==> InFlight(s, h) == 0
  }

  ghost predicate Straight(s: State, step: Step) {
    match step
    case Land(t, raced, now) => StraightLand(s, t, raced)
    case Close(t, h) => StraightClose(s, t, h)
    case _ => true
  }

  lemma LandBalancedIff(s: State, t: nat, raced: bool, now: nat)
    requires NoDrift(s)
    ensures NoDrift(Next(s, Land(t, raced, now))) <==> StraightLand(s, t, raced)
  {
    if CanLand(s, t) {
      LandKeepsBalanceIff(s, t, raced, now);
      var h, s' := s.tasks[t].h, Next(s, Land(t, raced, now));
      assert s'.caches.Keys == s.caches.Keys && s'.globalDrift == s.globalDrift && s'.caches[h].c.closed == s.caches[h].c.closed;
      assert forall g :: g in s.caches && g != h ==> s'.caches[g] == s.caches[g];
    }
  }

  lemma CloseBalancedIff(s: State, t: nat, h: CacheId)
    requires Law(s) && NoDrift(s)
    ensures NoDrift(Next(s, Close(t, h))) <==> StraightClose(s, t, h)
  {
    if h in s.caches && t !in s.tasks {
      var s' := Next(s, Close(t, h));
      assert CacheLaw(s, h);
      assert forall g :: g in s.caches && g != h ==> s'.caches[g] == s.caches[g];
      if !s.caches[h].c.closed {
        CloseKeepsBalanceIff(s, t, h);
      }
    }
  }

  ghost predicate SameDrift(s: State, s': State, h: CacheId) {
    && s'.globalDrift == s.globalDrift
    && (h in s.caches ==> h in s'.caches && s'.caches[h].drift == s.caches[h].drift && s'.caches[h].c.closed == s.caches[h].c.closed)
    && (h !in s.caches && h in s'.caches ==> s'.caches[h].drift == 0)
  }

  lemma ReleasesKeepDrift(s: State, step: Step, h: CacheId)
    requires step.Evict? || step.Invalidate?
    ensures SameDrift(s, Next(s, step), h)
  {
  }

  lemma WritesKeepDrift(s: State, step: Step, h: CacheId)
    requires step.Open? || step.Fetch? || step.Report? || step.Complete?
    ensures SameDrift(s, Next(s, step), h)
  {
  }

  lemma OthersKeepDrift(s: State, step: Step, h: CacheId)
    requires !step.Land? && !step.Close?
    ensures SameDrift(s, Next(s, step), h)
  {
    if step.Evict? || step.Invalidate? {
      ReleasesKeepDrift(s, step, h);
    } else if step.Open? || step.Fetch? || step.Report? || step.Complete? {
      WritesKeepDrift(s, step, h);
    }
  }

  /** Exactly which steps keep balanced books balanced. */
  lemma StepBalancedIff(s: State, step: Step)
    requires Law(s) && Balanced(s)
    ensures Balanced(Next(s, step)) <==> Straight(s, step)
  {
    NextKeepsLaw(s, step);
    BalancedIffNoDrift(s);
    BalancedIffNoDrift(Next(s, step));
    match step
    case Land(t, raced, now) => LandBalancedIff(s, t, raced, now);
    case Close(t, h) => CloseBalancedIff(s, t, h);
    case _ =>
      forall h ensures h in Next(s, step).caches && !Next(s, step).caches[h].c.closed ==> Next(s, step).caches[h].drift == 0 {
        OthersKeepDrift(s, step, h);
      }
      OthersKeepDrift(s, step, 0);
  }

  ghost predicate StraightRun(s: State, steps: seq<Step>)
    decreases |steps|
  {
    steps != [] ==> Straight(s, steps[0]) && StraightRun(Next(s, steps[0]), steps[1..])
  }

  /** Balanced at every point of the run. */
  ghost predicate AlwaysBalanced(s: State, steps: seq<Step>)
    decreases |steps|
  {
    Balanced(s) && (steps != [] ==> AlwaysBalanced(Next(s, steps[0]), steps[1..]))
  }

  lemma {:induction false} AlwaysBalancedIff(s: State, steps: seq<Step>)
    requires Law(s) && Balanced(s)
    ensures AlwaysBalanced(s, steps) <==> StraightRun(s, steps)
    decreases |steps|
  {
    if steps != [] {
      var s' := Next(s, steps[0]);
      StepBalancedIff(s, steps[0]);
      NextKeepsLaw(s, steps[0]);
      if Balanced(s') {
        AlwaysBalancedIff(s', steps[1..]);
      }
    }
  }

  lemma {:induction false} BalancedAt(s: State, steps: seq<Step>, n: nat)
    requires AlwaysBalanced(s, steps) && n <= |steps|
    ensures Balanced(Run(s, steps[..n]))
    decreases |steps|
  {
    if n > 0 {
      BalancedAt(Next(s, steps[0]), steps[1..], n - 1);
      assert steps[..n][1..] == steps[1..][..n - 1];
    } else {
      assert steps[..0] == [];
    }
  }

  lemma {:induction false} PointsAreAll(s: State, steps: seq<Step>)
    requires forall n :: 0 <= n <= |steps| ==> Balanced(Run(s, steps[..n]))
    ensures AlwaysBalanced(s, steps)
    decreases |steps|
  {
    assert steps[..0] == [];
    if steps != [] {
      var rest := steps[1..];
      forall n | 0 <= n <= |rest| ensures Balanced(Run(Next(s, steps[0]), rest[..n])) {
        assert steps[..n + 1][1..] == rest[..n];
      }
      PointsAreAll(Next(s, steps[0]), rest);
    }
  }

  /** Where every run starts. */
  lemma InitBalanced()
    ensures Law(Init) && Balanced(Init)
  {
  }

  /**
   Conservation, exactly: started with balanced books, they agree at both levels at every point of a run if
   and only if each landing in an open cache places nothing or is resident just when it fits, and each
   teardown that takes effect finds nothing in flight.
   */
  lemma {:induction false} LedgerConservedIff(s: State, steps: seq<Step>)
    requires Law(s) && Balanced(s)
    ensures (forall n :: 0 <= n <= |steps| ==> Balanced(Run(s, steps[..n]))) <==> StraightRun(s, steps)
  {
    AlwaysBalancedIff(s, steps);
    if StraightRun(s, steps) {
      forall n | 0 <= n <= |steps| ensures Balanced(Run(s, steps[..n])) {
        BalancedAt(s, steps, n);
      }
    } else if forall n :: 0 <= n <= |steps| ==> Balanced(Run(s, steps[..n])) {
      PointsAreAll(s, steps);
    }
  }

  ghost function ResidentOf(): Acct -> int { (a: Acct) => ResidentBytes(a.c) }

  ghost predicate Quiet(s: State) { forall t :: t in s.tasks ==> !s.tasks[t].Landed? && !s.tasks[t].Delta? }

  /** When no write or release is half done, the global total is exactly the bytes held in RAM. */
  lemma {:induction false} QuietTotal(s: State, steps: seq<Step>)
    requires Law(s) && Balanced(s) && StraightRun(s, steps) && Quiet(Run(s, steps))
    ensures Run(s, steps).global == SumBy(Run(s, steps).caches, ResidentOf())
  {
    EndBalanced(s, steps);
    QuietBooks(Run(s, steps));
  }

  lemma {:induction false} EndBalanced(s: State, steps: seq<Step>)
    requires Law(s) && Balanced(s) && StraightRun(s, steps)
    ensures Law(Run(s, steps)) && Balanced(Run(s, steps))
    decreases |steps|
  {
    if steps != [] {
      NextKeepsLaw(s, steps[0]);
      StepBalancedIff(s, steps[0]);
      EndBalanced(Next(s, steps[0]), steps[1..]);
    }
  }

  lemma QuietBooks(s: State)
    ensures Law(s) && Balanced(s) && Quiet(s) ==> s.global == SumBy(s.caches, ResidentOf())
  {
    if Law(s) && Balanced(s) && Quiet(s) {
      NothingPending(s.tasks);
      forall h | h in s.caches ensures FilledOf()(s.caches[h]) == ResidentOf()(s.caches[h]) {
        assert CacheBalanced(s, h) && CacheLaw(s, h);
        NothingInFlight(s.tasks, h);
      }
      SumBySame(s.caches, FilledOf(), ResidentOf());
    }
  }

  lemma {:induction false} NothingPending(tasks: map<nat, Task>)
    requires forall t :: t in tasks ==> !tasks[t].Delta?
    ensures SumBy(tasks, DeltaOf()) == 0
    decreases |tasks|
  {
    if tasks != map[] {
      var t :| t in tasks;
      SumByRemove(tasks, DeltaOf(), t);
      NothingPending(tasks - {t});
    }
  }

  // ---------------------------------------------------------------- teardown

  lemma NextKeepsClosed(s: State, step: Step, h: CacheId)
    requires h in s.caches && s.caches[h].c.closed
    ensures h in Next(s, step).caches && Next(s, step).caches[h].c.closed
  {
    if step.Land? {
      LandKeepsClosed(s, step.t, step.raced, step.now, h);
    } else if step.Evict? || step.Invalidate? || step.Close? {
      ReleaseKeepsClosed(s, step, h);
    }
  }

  lemma LandKeepsClosed(s: State, t: nat, raced: bool, now: nat, h: CacheId)
    requires h in s.caches && s.caches[h].c.closed
    ensures var s' := Next(s, Land(t, raced, now)); h in s'.caches && s'.caches[h].c.closed
  {
  }

  lemma ReleaseKeepsClosed(s: State, step: Step, h: CacheId)
    requires h in s.caches && s.caches[h].c.closed && (step.Evict? || step.Invalidate? || step.Close?)
    ensures h in Next(s, step).caches && Next(s, step).caches[h].c.closed
  {
  }

  lemma {:induction false} RunKeepsClosed(s: State, steps: seq<Step>, h: CacheId)
    requires h in s.caches && s.caches[h].c.closed
    ensures h in Run(s, steps).caches && Run(s, steps).caches[h].c.closed
    decreases |steps|
  {
    if steps != [] {
      NextKeepsClosed(s, steps[0], h);
      RunKeepsClosed(Next(s, steps[0]), steps[1..], h);
    }
  }

  /** Late writers cannot resurrect a dropped torrent: a closed cache stays empty forever. */
  lemma {:induction false} ClosedForever(before: seq<Step>, after: seq<Step>, h: CacheId)
    requires h in Run(Init, before).caches && Run(Init, before).caches[h].c.closed
    ensures var s := Run(Run(Init, before), after);
            h in s.caches && s.caches[h].c.closed && s.caches[h].c.pieces == map[] && s.caches[h].c.filled == 0
  {
    RunKeepsLaw(Init, before);
    RunKeepsLaw(Run(Init, before), after);
    RunKeepsClosed(Run(Init, before), after, h);
    assert CacheLaw(Run(Run(Init, before), after), h);
  }

  // ---------------------------------------------------------------- eviction

  ghost predicate Stays(s: State, s': State, h: CacheId, idx: int)
    requires h in s.caches && idx in s.caches[h].c.pieces
  {
    h in s'.caches && Resident(s'.caches[h].c, idx, s.caches[h].c.pieces[idx].id)
  }

  lemma WritesKeepResident(s: State, step: Step, h: CacheId, idx: int)
    requires h in s.caches && idx in s.caches[h].c.pieces && (step.Land? || step.Fetch? || step.Complete?)
    ensures Stays(s, Next(s, step), h, idx)
  {
  }

  lemma EvictLeavesOnlyIf(s: State, t: nat, h: CacheId, idx: int)
    requires h in s.caches && idx in s.caches[h].c.pieces && !Stays(s, Next(s, Evict(t)), h, idx)
    ensures t in s.tasks && s.tasks[t] == Victim(h, idx, s.caches[h].c.pieces[idx].id)
            && Evictable(s.caches[h].c, Guard(s.caches[h].c), idx)
  {
  }

  lemma BooksKeepResident(s: State, step: Step, h: CacheId, idx: int)
    requires h in s.caches && idx in s.caches[h].c.pieces
    requires step.Open? || step.Report? || step.Settle? || step.Collect? || step.SetReader? || step.DropReader?
             || ((step.Invalidate? || step.Close?) && !(step.h == h && (step.Close? || step.idx == idx)))
    ensures Stays(s, Next(s, step), h, idx)
  {
  }

  /**
   A resident piece leaves the map only by invalidation, by teardown, or by an eviction aimed at that
   very piece while it is complete and outside every registered reader's window.
   */
  lemma LeavesOnlyIf(s: State, step: Step, h: CacheId, idx: int)
    requires h in s.caches && idx in s.caches[h].c.pieces && !Stays(s, Next(s, step), h, idx)
    ensures || (step.Invalidate? && step.h == h && step.idx == idx)
            || (step.Close? && step.h == h)
            || (step.Evict? && step.t in s.tasks && s.tasks[step.t] == Victim(h, idx, s.caches[h].c.pieces[idx].id)
                && Evictable(s.caches[h].c, Guard(s.caches[h].c), idx))
  {
    if step.Evict? {
      EvictLeavesOnlyIf(s, step.t, h, idx);
    } else if step.Land? || step.Fetch? || step.Complete? {
      WritesKeepResident(s, step, h, idx);
    } else if !((step.Invalidate? && step.h == h && step.idx == idx) || (step.Close? && step.h == h)) {
      BooksKeepResident(s, step, h, idx);
    }
  }

  /** At every point of the run the piece is guarded or incomplete, and it is not invalidated or torn down. */
  ghost predicate Shielded(s: State, steps: seq<Step>, h: CacheId, idx: int)
    decreases |steps|
  {
    steps != [] ==>
      && h in s.caches && idx in s.caches[h].c.pieces
      && (idx in Guard(s.caches[h].c) || !IsComplete(s.caches[h].c.pieces[idx].mem))
      && !(steps[0].Invalidate? && steps[0].h == h && steps[0].idx == idx) && !(steps[0].Close? && steps[0].h == h)
      && Shielded(Next(s, steps[0]), steps[1..], h, idx)
  }

  /** Whatever was collected before and whatever runs in between, such a piece survives, itself. */
  lemma {:induction false} ShieldedSurvives(s: State, steps: seq<Step>, h: CacheId, idx: int, id: nat)
    requires h in s.caches && Resident(s.caches[h].c, idx, id) && Shielded(s, steps, h, idx)
    ensures h in Run(s, steps).caches && Resident(Run(s, steps).caches[h].c, idx, id)
    decreases |steps|
  {
    if steps != [] {
      var s' := Next(s, steps[0]);
      if !(h in s'.caches && Resident(s'.caches[h].c, idx, id)) {
        LeavesOnlyIf(s, steps[0], h, idx);
      }
      ShieldedSurvives(s', steps[1..], h, idx, id);
    }
  }

  // ---------------------------------------------------------------- identity

  /** Identities are never reused: a resident piece has not been given back, and none is given back twice. */
  ghost predicate CacheIds(s: State, h: CacheId)
    requires h in s.caches
  {
    var c := s.caches[h].c;
    && (forall i :: i in c.pieces ==> c.pieces[i].id < c.nextId && (h, c.pieces[i].id) !in s.released)
    && (forall i, j :: i in c.pieces && j in c.pieces && i != j ==> c.pieces[i].id != c.pieces[j].id)
  }

  ghost predicate Ids(s: State) {
    && (forall h :: h in s.caches ==> CacheIds(s, h))
    && (forall x: (CacheId, nat) :: x in s.released ==> s.released[x] == 1 && x.0 in s.caches && x.1 < s.caches[x.0].c.nextId)
  }

  lemma ReleaseKeepsIds(s: State, t: nat, h: CacheId, c: CacheSt, freed: int)
    requires Ids(s) && h in s.caches && c.nextId == s.caches[h].c.nextId
    requires forall i :: i in c.pieces ==> i in s.caches[h].c.pieces && c.pieces[i] == s.caches[h].c.pieces[i]
    ensures Ids(Release(s, t, h, c, freed))
  {
    var c0, s' := s.caches[h].c, Release(s, t, h, c, freed);
    var gone := Gone(h, c0, c);
    assert CacheIds(s, h);
    forall x | x in s'.released ensures s'.released[x] == 1 && x.0 in s'.caches && x.1 < s'.caches[x.0].c.nextId {
      if x in gone {
        var i :| i in c0.pieces && i !in c.pieces && x == (h, c0.pieces[i].id);
        assert x !in s.released;
      }
    }
    forall g | g in s'.caches ensures CacheIds(s', g) {
      assert CacheIds(s, g);
      forall i | i in s'.caches[g].c.pieces ensures (g, s'.caches[g].c.pieces[i].id) !in s'.released {
        assert (g, s'.caches[g].c.pieces[i].id) !in gone;
      }
    }
  }

  /** Slots keep their identities, or one gains a fresh one. */
  ghost predicate KeepsSlots(c: CacheSt, c': CacheSt) {
    && c.nextId <= c'.nextId
    && (forall i :: i in c'.pieces ==>
          (i in c.pieces && c'.pieces[i].id == c.pieces[i].id) || (i !in c.pieces && c'.pieces[i].id == c.nextId < c'.nextId))
    && (forall i, j :: i in c'.pieces && j in c'.pieces && i != j ==> i in c.pieces || j in c.pieces)
  }

  /** Only cache `h` changed, and nothing was given back. */
  ghost predicate OnlyCache(s: State, s': State, h: CacheId) {
    && h in s.caches && s'.released == s.released && s'.caches.Keys == s.caches.Keys
    && forall g :: g in s.caches && g != h ==> s'.caches[g] == s.caches[g]
  }

  lemma SlotsKeepIds(s: State, s': State, h: CacheId)
    requires Ids(s) && OnlyCache(s, s', h) && KeepsSlots(s.caches[h].c, s'.caches[h].c)
    ensures Ids(s')
  {
    assert CacheIds(s, h);
    forall g | g in s'.caches ensures CacheIds(s', g) {
      assert CacheIds(s, g);
    }
  }

  lemma FetchKeepsIds(s: State, t: nat, h: CacheId, idx: int, size: nat, load: Payload, now: nat)
    requires Ids(s)
    ensures Ids(Next(s, Fetch(t, h, idx, size, load, now)))
  {
    if t !in s.tasks && h in s.caches {
      SlotsKeepIds(s, Next(s, Fetch(t, h, idx, size, load, now)), h);
    }
  }

  lemma LandInKeepsSlots(a: Acct, t: Task, raced: bool, now: nat)
    requires t.Hold?
    ensures KeepsSlots(a.c, LandIn(a, t, raced, now).c)
  {
  }

  lemma LandChangesOne(s: State, t: nat, raced: bool, now: nat)
    requires CanLand(s, t)
    ensures var h, s' := s.tasks[t].h, Next(s, Land(t, raced, now));
            OnlyCache(s, s', h) && s'.caches[h] == LandIn(s.caches[h], s.tasks[t], raced, now)
  {
  }

  lemma LandKeepsIds(s: State, t: nat, raced: bool, now: nat)
    requires Ids(s)
    ensures Ids(Next(s, Land(t, raced, now)))
  {
    if CanLand(s, t) {
      var h := s.tasks[t].h;
      LandInKeepsSlots(s.caches[h], s.tasks[t], raced, now);
      LandChangesOne(s, t, raced, now);
      SlotsKeepIds(s, Next(s, Land(t, raced, now)), h);
    }
  }

  lemma ReportKeepsIds(s: State, t: nat)
    requires Ids(s)
    ensures Ids(Next(s, Report(t)))
  {
    if t in s.tasks && s.tasks[t].Landed? && s.tasks[t].h in s.caches {
      SlotsKeepIds(s, Next(s, Report(t)), s.tasks[t].h);
    }
  }

  lemma CompleteKeepsIds(s: State, h: CacheId, idx: int, now: nat)
    requires Ids(s)
    ensures Ids(Next(s, Complete(h, idx, now)))
  {
    if h in s.caches && idx in s.caches[h].c.pieces {
      SlotsKeepIds(s, Next(s, Complete(h, idx, now)), h);
    }
  }

  lemma EvictKeepsIds(s: State, t: nat)
    requires Ids(s)
    ensures Ids(Next(s, Evict(t)))
  {
    if t in s.tasks && s.tasks[t].Victim? && s.tasks[t].h in s.caches {
      var Victim(h, idx, id) := s.tasks[t];
      var (c, freed) := Evicted(s.caches[h].c, Guard(s.caches[h].c), idx, id);
      ReleaseKeepsIds(s, t, h, c, freed);
    }
  }

  lemma InvalidateKeepsIds(s: State, t: nat, h: CacheId, idx: int)
    requires Ids(s)
    ensures Ids(Next(s, Invalidate(t, h, idx)))
  {
    if t !in s.tasks && h in s.caches {
      var (c, freed) := Invalidated(s.caches[h].c, idx);
      ReleaseKeepsIds(s, t, h, c, freed);
    }
  }

  lemma CloseKeepsIds(s: State, t: nat, h: CacheId)
    requires Ids(s)
    ensures Ids(Next(s, Close(t, h)))
  {
    if t !in s.tasks && h in s.caches {
      var (c, freed) := Closed(s.caches[h].c);
      ReleaseKeepsIds(s, t, h, c, freed);
      SameCachesKeepIds(Release(s, t, h, c, freed), Next(s, Close(t, h)));
    }
  }

  lemma OpenKeepsIds(s: State, h: CacheId, sh: Shape)
    requires Ids(s)
    ensures Ids(Next(s, Open(h, sh)))
  {
    var s' := Next(s, Open(h, sh));
    forall g | g in s'.caches ensures CacheIds(s', g) {
      assert g in s.caches ==> CacheIds(s, g);
    }
  }

  lemma ReadersKeepIds(s: State, h: CacheId, readers: map<nat, ReaderSt>)
    requires Ids(s) && h in s.caches
    ensures Ids(WithCache(s, h, s.caches[h].c.(readers := readers)))
  {
    SlotsKeepIds(s, WithCache(s, h, s.caches[h].c.(readers := readers)), h);
  }

  lemma ReaderStepKeepsIds(s: State, step: Step)
    requires Ids(s) && (step.SetReader? || step.DropReader?)
    ensures Ids(Next(s, step))
  {
    if step.h in s.caches {
      var readers := s.caches[step.h].c.readers;
      ReadersKeepIds(s, step.h, if step.SetReader? then readers[step.r := step.st] else readers - {step.r});
    }
  }

  lemma TaskStepKeepsIds(s: State, step: Step)
    requires Ids(s) && (step.Settle? || step.Collect?)
    ensures Ids(Next(s, step))
  {
    SameCachesKeepIds(s, Next(s, step));
  }

  lemma NextKeepsIds(s: State, step: Step)
    requires Ids(s)
    ensures Ids(Next(s, step))
  {
    match step
    case Open(h, sh) => OpenKeepsIds(s, h, sh);
    case Fetch(t, h, idx, size, load, now) => FetchKeepsIds(s, t, h, idx, size, load, now);
    case Land(t, raced, now) => LandKeepsIds(s, t, raced, now);
    case Report(t) => ReportKeepsIds(s, t);
    case Settle(t) => TaskStepKeepsIds(s, step);
    case Complete(h, idx, now) => CompleteKeepsIds(s, h, idx, now);
    case Collect(t, h, idx) => TaskStepKeepsIds(s, step);
    case Evict(t) => EvictKeepsIds(s, t);
    case Invalidate(t, h, idx) => InvalidateKeepsIds(s, t, h, idx);
    case Close(t, h) => CloseKeepsIds(s, t, h);
    case SetReader(h, r, st) => ReaderStepKeepsIds(s, step);
    case DropReader(h, r) => ReaderStepKeepsIds(s, step);
  }

  lemma SameCachesKeepIds(s: State, s': State)
    requires Ids(s) && s'.caches == s.caches && s'.released == s.released
    ensures Ids(s')
  {
    forall g | g in s'.caches ensures CacheIds(s', g) {
      assert CacheIds(s, g);
    }
  }

  lemma {:induction false} RunKeepsIds(s: State, steps: seq<Step>)
    requires Ids(s)
    ensures Ids(Run(s, steps))
    decreases |steps|
  {
    if steps != [] {
      NextKeepsIds(s, steps[0]);
      RunKeepsIds(Next(s, steps[0]), steps[1..]);
    }
  }

  lemma ResidentNotReleased(s: State, h: CacheId, i: int)
    requires Ids(s) && h in s.caches && i in s.caches[h].c.pieces
    ensures (h, s.caches[h].c.pieces[i].id) !in s.released
  {
    assert CacheIds(s, h);
  }

  /** In every run no buffer is given back twice, and none that was given back is in a map again. */
  lemma {:induction false} ReleasedOnce(steps: seq<Step>, s: State)
    requires s == Run(Init, steps)
    ensures forall x: (CacheId, nat) :: x in s.released ==> s.released[x] == 1
    ensures forall h, i :: h in s.caches && i in s.caches[h].c.pieces ==> (h, s.caches[h].c.pieces[i].id) !in s.released
  {
    RunKeepsIds(Init, steps);
    forall h, i | h in s.caches && i in s.caches[h].c.pieces ensures (h, s.caches[h].c.pieces[i].id) !in s.released {
      ResidentNotReleased(s, h, i);
    }
  }

  // ---------------------------------------------------------------- what carelessness costs

  /** By how much a cache's books exceed what it holds. */
  ghost function Excess(s: State, h: CacheId): int
    requires h in s.caches
  {
    s.caches[h].c.filled + InFlight(s, h) - ResidentBytes(s.caches[h].c)
  }

  /** Landings in cache `h` are straight and it is not torn down. */
  ghost predicate LeavesBooks(s: State, step: Step, h: CacheId) {
    && (step.Land? && CanLand(s, step.t) && s.tasks[step.t].h == h ==> StraightLand(s, step.t, step.raced))
    && !(step.Close? && step.h == h)
  }

  ghost predicate LeavesBooksRun(s: State, steps: seq<Step>, h: CacheId)
    decreases |steps|
  {
    steps != [] ==> LeavesBooks(s, steps[0], h) && LeavesBooksRun(Next(s, steps[0]), steps[1..], h)
  }

  lemma LandKeepsDrift(s: State, t: nat, raced: bool, now: nat, h: CacheId)
    requires h in s.caches && !s.caches[h].c.closed && LeavesBooks(s, Land(t, raced, now), h)
    ensures var s' := Next(s, Land(t, raced, now));
            h in s'.caches && !s'.caches[h].c.closed && s'.caches[h].drift == s.caches[h].drift
  {
    if CanLand(s, t) && s.tasks[t].h == h {
      LandKeepsBalanceIff(s, t, raced, now);
    }
  }

  lemma CloseKeepsDrift(s: State, t: nat, g: CacheId, h: CacheId)
    requires h in s.caches && g != h
    ensures var s' := Next(s, Close(t, g)); h in s'.caches && s'.caches[h] == s.caches[h]
  {
  }

  lemma ExcessStep(s: State, step: Step, h: CacheId)
    requires Law(s) && h in s.caches && !s.caches[h].c.closed && LeavesBooks(s, step, h)
    ensures var s' := Next(s, step);
            h in s'.caches && !s'.caches[h].c.closed && Excess(s', h) == Excess(s, h)
  {
    NextKeepsLaw(s, step);
    match step {
      case Land(t, raced, now) => LandKeepsDrift(s, t, raced, now, h);
      case Close(t, g) => CloseKeepsDrift(s, t, g, h);
      case _ => OthersKeepDrift(s, step, h);
    }
    assert CacheLaw(s, h) && CacheLaw(Next(s, step), h);
  }

  /** An excess or a shortfall is there for good: only another crooked landing or teardown changes it. */
  lemma {:induction false} ExcessPersists(s: State, steps: seq<Step>, h: CacheId)
    requires Law(s) && h in s.caches && !s.caches[h].c.closed && LeavesBooksRun(s, steps, h)
    ensures var e := Run(s, steps);
            h in e.caches && !e.caches[h].c.closed && Excess(e, h) == Excess(s, h)
    decreases |steps|
  {
    if steps != [] {
      ExcessStep(s, steps[0], h);
      NextKeepsLaw(s, steps[0]);
      ExcessPersists(Next(s, steps[0]), steps[1..], h);
    }
  }

  lemma {:induction false} RunStep(s: State, step: Step, rest: seq<Step>)
    ensures Run(s, [step] + rest) == Run(Next(s, step), rest)
  {
    assert ([step] + rest)[1..] == rest;
  }

  /** A cache is opened and one goroutine fetches a piece of one byte, to write `p` into it. */
  function Opening(sh: Shape, p: seq<byte>, rest: seq<Step>): seq<Step> {
    [Open(0, sh)] + ([Fetch(0, 0, 0, 1, Chunk(p, 0), 0)] + rest)
  }

  /** Where that leads. */
  ghost predicate AtWrite(s: State, p: seq<byte>) {
    && s.caches.Keys == {0} && var a := s.caches[0];
    && !a.c.closed && a.c.filled == 0 && a.c.pieces == map[0 := Slot(0, Fresh(1, 0))]
    && s.tasks == map[0 := Hold(0, 0, 0, 1, Chunk(p, 0))] && s.global == 0
  }

  lemma {:induction false} OpeningLeads(sh: Shape, p: seq<byte>, rest: seq<Step>) returns (s: State)
    ensures AtWrite(s, p) && Run(Init, Opening(sh, p, rest)) == Run(s, rest)
  {
    var f := Fetch(0, 0, 0, 1, Chunk(p, 0), 0);
    s := Next(Next(Init, Open(0, sh)), f);
    RunStep(Init, Open(0, sh), [f] + rest);
    RunStep(Next(Init, Open(0, sh)), f, rest);
  }

  /** The piece is invalidated before its only byte lands: that byte stays in the books. */
  function StaleRun(sh: Shape, p: seq<byte>): seq<Step> {
    Opening(sh, p, [Invalidate(1, 0, 0)] + ([Settle(1)] + ([Land(0, false, 0)] + ([Report(0)] + []))))
  }

  /** The piece has left the map. */
  ghost predicate AtStale(s: State, p: seq<byte>) {
    && s.caches.Keys == {0} && !s.caches[0].c.closed && s.caches[0].c.filled == 0 && s.caches[0].c.pieces == map[]
    && s.tasks == map[0 := Hold(0, 0, 0, 1, Chunk(p, 0))]
  }

  lemma InvalidateLeads(s: State, p: seq<byte>)
    requires AtWrite(s, p)
    ensures AtStale(Next(Next(s, Invalidate(1, 0, 0)), Settle(1)), p)
  {
    var s1 := Next(s, Invalidate(1, 0, 0));
    assert s1.tasks == s.tasks[1 := Delta(0)];
    assert s1.tasks - {1} == s.tasks;
  }

  lemma StaleLands(s: State, p: seq<byte>)
    requires AtStale(s, p) && |p| == 1
    ensures var e := Next(Next(s, Land(0, false, 0)), Report(0));
            && e.caches.Keys == {0} && !e.caches[0].c.closed && e.caches[0].c.filled == 1 && e.caches[0].c.pieces == map[]
            && e.tasks == map[0 := Delta(1)]
  {
    var s1 := Next(s, Land(0, false, 0));
    assert s1.tasks == map[0 := Landed(0, 1)];
  }

  lemma StaleLandingLeaks(sh: Shape, b: byte)
    ensures var s := Run(Init, StaleRun(sh, [b]));
            && 0 in s.caches && !s.caches[0].c.closed
            && s.caches[0].c.pieces == map[] && s.caches[0].c.filled == 1 && Excess(s, 0) == 1
  {
    var p := [b];
    var r4 := [Report(0)] + [];
    var r3 := [Land(0, false, 0)] + r4;
    var r2 := [Settle(1)] + r3;
    var s := OpeningLeads(sh, p, [Invalidate(1, 0, 0)] + r2);
    var s1 := Next(s, Invalidate(1, 0, 0));
    var s2 := Next(s1, Settle(1));
    var s3 := Next(s2, Land(0, false, 0));
    RunStep(s, Invalidate(1, 0, 0), r2);
    RunStep(s1, Settle(1), r3);
    RunStep(s2, Land(0, false, 0), r4);
    RunStep(s3, Report(0), []);
    InvalidateLeads(s, p);
    StaleLands(s2, p);
    NothingInFlight(Next(s3, Report(0)).tasks, 0);
  }

  /** A chunk longer than the piece lands in part, fails, and is never booked. */
  function ShortRun(sh: Shape, p: seq<byte>): seq<Step> { Opening(sh, p, [Land(0, false, 0)] + []) }

  /** One byte of `p` has landed in the resident piece; `tasks` is what is left to do. */
  ghost predicate AtLanded(s: State, tasks: map<nat, Task>) {
    && s.caches.Keys == {0} && !s.caches[0].c.closed && s.caches[0].c.filled == 0 && ResidentBytes(s.caches[0].c) == 1
    && s.tasks == tasks && s.global == 0
  }

  lemma LandLeads(s: State, p: seq<byte>)
    requires AtWrite(s, p) && |p| > 0
    ensures AtLanded(Next(s, Land(0, false, 0)), if |p| == 1 then map[0 := Landed(0, 1)] else map[])
  {
    var s1 := Next(s, Land(0, false, 0));
    var slot := Slot(0, Written(Fresh(1, 0), p, 0, 0));
    assert slot.mem.accounted == 1;
    assert s1.caches[0].c.pieces == map[][0 := slot];
    SumByUpdate(map[], Accounted(), 0, slot);
  }

  lemma ShortWriteIsNeverBooked(sh: Shape, b: byte)
    ensures var s := Run(Init, ShortRun(sh, [b, b]));
            && 0 in s.caches && !s.caches[0].c.closed
            && s.caches[0].c.filled == 0 && s.tasks == map[] && ResidentBytes(s.caches[0].c) == 1 && Excess(s, 0) == -1
  {
    var p := [b, b];
    var s := OpeningLeads(sh, p, [Land(0, false, 0)] + []);
    RunStep(s, Land(0, false, 0), []);
    LandLeads(s, p);
  }

  /** A byte in flight when the cache is torn down is given back without ever having been booked. */
  function CloseRun(sh: Shape, p: seq<byte>): seq<Step> {
    Opening(sh, p, [Land(0, false, 0)] + ([Close(1, 0)] + ([Report(0)] + ([Settle(1)] + []))))
  }

  lemma CloseLeads(s: State)
    requires AtLanded(s, map[0 := Landed(0, 1)])
    ensures var e := Next(s, Close(1, 0));
            && e.caches.Keys == {0} && e.caches[0].c.closed && e.caches[0].c.filled == 0 && e.global == 0
            && e.tasks == map[0 := Landed(0, 1), 1 := Delta(-1)]
  {
  }

  lemma LateReportIsDropped(s: State)
    requires s.caches.Keys == {0} && s.caches[0].c.closed && s.caches[0].c.filled == 0 && s.global == 0
    requires s.tasks == map[0 := Landed(0, 1), 1 := Delta(-1)]
    ensures var e := Next(Next(s, Report(0)), Settle(1)); e.tasks == map[] && e.global == -1 && TotalFilled(e) == 0
  {
    var s1 := Next(s, Report(0));
    assert s1.tasks == map[1 := Delta(-1)];
    var e := Next(s1, Settle(1));
    var none: map<CacheId, Acct> := map[];
    assert e.caches == none[0 := e.caches[0]] && e.caches[0].c.filled == 0;
    assert SumBy(none, FilledOf()) == 0;
    SumByUpdate(none, FilledOf(), 0, e.caches[0]);
  }

  lemma CloseInFlightLeaks(sh: Shape, b: byte)
    ensures var s := Run(Init, CloseRun(sh, [b]));
            s.tasks == map[] && s.global == -1 && TotalFilled(s) == 0
  {
    var p := [b];
    var r4 := [Settle(1)] + [];
    var r3 := [Report(0)] + r4;
    var r2 := [Close(1, 0)] + r3;
    var s := OpeningLeads(sh, p, [Land(0, false, 0)] + r2);
    var s1 := Next(s, Land(0, false, 0));
    var s2 := Next(s1, Close(1, 0));
    var s3 := Next(s2, Report(0));
    RunStep(s, Land(0, false, 0), r2);
    RunStep(s1, Close(1, 0), r3);
    RunStep(s2, Report(0), r4);
    RunStep(s3, Settle(1), []);
    LandLeads(s, p);
    CloseLeads(s1);
    LateReportIsDropped(s2);
  }
}
