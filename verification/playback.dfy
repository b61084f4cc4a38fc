/**
 Playback sessions, the idle reaper and the claim step of a torrent drop (handlers/playback.go,
 handlers/torrents.go). Each section that holds the lifecycle lock is one step.
 */
module Playbacks {
  import opened Common

  type Hash = string
  type Sid = string

  datatype Session = Session(hash: Hash, file: string, lastPing: int)

  datatype Lifecycle = Lifecycle(playback: map<Sid, Session>, seen: map<Hash, int>, dropping: set<Hash>)

  function SessionsOn(playback: map<Sid, Session>, h: Hash): set<Sid> { set id | id in playback && playback[id].hash == h }

  /** A new session is refused at the cap (0 means none); an existing one always refreshes. */
  predicate Admits(l: Lifecycle, id: Sid, cap: nat) {
    id in l.playback || cap == 0 || |l.playback| < cap
  }

  function Kept(l: Lifecycle, id: Sid, s: Session, cap: nat): Lifecycle {
    if Admits(l, id, cap) then l.(playback := l.playback[id := s]) else l
  }

  function Stopped(l: Lifecycle, id: Sid): Lifecycle { l.(playback := l.playback - {id}) }

  function Expired(l: Lifecycle, cutoff: int): Lifecycle {
    l.(playback := map id | id in l.playback && l.playback[id].lastPing >= cutoff :: l.playback[id])
  }

  /** Is the torrent to be dropped by this visit of the reaper? */
  predicate Idle(l: Lifecycle, h: Hash, persistent: bool, now: int, grace: int) {
    !persistent && SessionsOn(l.playback, h) == {} && h in l.seen && now - l.seen[h] > grace
  }

  /** The reaper's visit to one torrent: its clock is refreshed, started, or left running. */
  function Visited(l: Lifecycle, h: Hash, persistent: bool, now: int): Lifecycle {
    if persistent || SessionsOn(l.playback, h) != {} || h !in l.seen then l.(seen := l.seen[h := now]) else l
  }

  function Claimed(l: Lifecycle, h: Hash): Lifecycle {
    if h in l.dropping then l
    else
      Lifecycle(map id | id in l.playback && l.playback[id].hash != h :: l.playback[id], l.seen - {h}, l.dropping + {h})
  }

  // ---------------------------------------------------------------- runs

  /** A visit at which the torrent had a session or was persistent. */
  datatype Sighting = Sighting(h: Hash, at: int)

  /**
   `tick` is when the reaper's current round started and `clock` the latest time anything has read; the
   sightings are history.
   */
  datatype State = State(l: Lifecycle, cap: nat, clock: int, tick: int, sightings: set<Sighting>)

  datatype Step =
    | Keepalive(id: Sid, h: Hash, file: string, now: int)
    | Stop(id: Sid)
    | Tick(now: int)
    | Expire(ttl: nat)
    | Visit(h: Hash, persistent: bool)
    | GetFiles(h: Hash, now: int)
    | Claim(h: Hash)
    | Dropped(h: Hash)
    | Budget(cap: nat)

  /** Clocks do not run backwards. */
  predicate Timely(s: State, step: Step) {
    match step
    case Keepalive(_, _, _, now) => now >= s.clock
    case Tick(now) => now >= s.clock
    case GetFiles(_, now) => now >= s.clock
    case _ => true
  }

  function Next(s: State, step: Step): State {
    match step
    case Keepalive(id, h, file, now) => s.(l := Kept(s.l, id, Session(h, file, now), s.cap), clock := now)
    case Stop(id) => s.(l := Stopped(s.l, id))
    case Tick(now) => s.(clock := now, tick := now)
    case Expire(ttl) => s.(l := Expired(s.l, s.tick - ttl))
    case Visit(h, persistent) =>
      var alive := persistent || SessionsOn(s.l.playback, h) != {};
      s.(l := Visited(s.l, h, persistent, s.tick), sightings := if alive then s.sightings + {Sighting(h, s.tick)} else s.sightings)
    case GetFiles(h, now) => s.(l := s.l.(seen := s.l.seen[h := now]), clock := now)
    case Claim(h) => s.(l := Claimed(s.l, h))
    case Dropped(h) => s.(l := s.l.(dropping := s.l.dropping - {h}))
    case Budget(cap) => s.(cap := cap)
  }

  predicate IsRun(s: State, steps: seq<Step>)
    decreases |steps|
  {
    steps != [] ==> Timely(s, steps[0]) && IsRun(Next(s, steps[0]), steps[1..])
  }

  function Run(s: State, steps: seq<Step>): State
    decreases |steps|
  {
    if steps == [] then s else Run(Next(s, steps[0]), steps[1..])
  }

  function Init(cap: nat, now: int): State { State(Lifecycle(map[], map[], {}), cap, now, now, {}) }

  /** The grace clock of a torrent is never behind a sighting of it. */
  ghost predicate ClocksAhead(s: State) {
    && s.tick <= s.clock
    && (forall x :: x in s.sightings ==> x.at <= s.tick)
    && (forall x :: x in s.sightings && x.h in s.l.seen ==> x.at <= s.l.seen[x.h])
  }

  lemma NextKeepsClocks(s: State, step: Step)
    requires ClocksAhead(s) && Timely(s, step)
    ensures ClocksAhead(Next(s, step))
  {
  }

  lemma {:induction false} RunKeepsClocks(s: State, steps: seq<Step>)
    requires ClocksAhead(s) && IsRun(s, steps)
    ensures ClocksAhead(Run(s, steps))
    decreases |steps|
  {
    if steps != [] {
      NextKeepsClocks(s, steps[0]);
      RunKeepsClocks(Next(s, steps[0]), steps[1..]);
    }
  }

  /**
   The reaper picks a torrent only if nobody watches it, it is not persistent, and more than the grace
   has passed since every earlier visit at which it was watched or persistent, in every run.
   */
  lemma {:induction false} ReapedOnlyAfterGrace(cap: nat, start: int, steps: seq<Step>, h: Hash, persistent: bool, grace: nat)
    requires IsRun(Init(cap, start), steps)
    ensures var s := Run(Init(cap, start), steps);
            Idle(s.l, h, persistent, s.tick, grace) ==>
              && !persistent && SessionsOn(s.l.playback, h) == {}
              && forall x :: x in s.sightings && x.h == h ==> s.tick - x.at > grace
  {
    RunKeepsClocks(Init(cap, start), steps);
  }

  /** Every visit to the torrent finds it idle, and nobody restarts or ends its clock. */
  ghost predicate LeftAlone(s: State, steps: seq<Step>, h: Hash)
    decreases |steps|
  {
    steps != [] ==>
      && (steps[0].Visit? && steps[0].h == h ==> !steps[0].persistent && SessionsOn(s.l.playback, h) == {})
      && !(steps[0].GetFiles? && steps[0].h == h) && !(steps[0].Claim? && steps[0].h == h)
      && LeftAlone(Next(s, steps[0]), steps[1..], h)
  }

  /** No clock is ahead of the time anything has read. */
  ghost predicate ClocksBehind(s: State) {
    s.tick <= s.clock && forall h :: h in s.l.seen ==> s.l.seen[h] <= s.clock
  }

  lemma NextKeepsBehind(s: State, step: Step)
    requires ClocksBehind(s) && Timely(s, step)
    ensures ClocksBehind(Next(s, step))
  {
  }

  lemma {:induction false} RunKeepsBehind(s: State, steps: seq<Step>)
    requires ClocksBehind(s) && IsRun(s, steps)
    ensures ClocksBehind(Run(s, steps))
    decreases |steps|
  {
    if steps != [] {
      NextKeepsBehind(s, steps[0]);
      RunKeepsBehind(Next(s, steps[0]), steps[1..]);
    }
  }

  lemma AloneStep(s: State, step: Step, h: Hash)
    requires h in s.l.seen && LeftAlone(s, [step], h)
    ensures h in Next(s, step).l.seen && Next(s, step).l.seen[h] == s.l.seen[h]
  {
  }

  lemma {:induction false} AloneKeepsClock(s: State, steps: seq<Step>, h: Hash)
    requires h in s.l.seen && LeftAlone(s, steps, h)
    ensures h in Run(s, steps).l.seen && Run(s, steps).l.seen[h] == s.l.seen[h]
    decreases |steps|
  {
    if steps != [] {
      assert [steps[0]][1..] == [];
      AloneStep(s, steps[0], h);
      AloneKeepsClock(Next(s, steps[0]), steps[1..], h);
    }
  }

  /**
   And it does pick it: in every run, take any visit to a torrent. If from then on every visit finds the
   torrent idle, nobody asks for its files and no drop is claimed, then a visit in a round that starts more
   than the grace after that first visit decides to drop it, provided it has no session at that moment.
   */
  lemma {:induction false} IdleIsReaped(cap: nat, start: int, before: seq<Step>, persistent: bool, after: seq<Step>, h: Hash, grace: nat)
    requires IsRun(Init(cap, start), before)
    requires LeftAlone(Next(Run(Init(cap, start), before), Visit(h, persistent)), after, h)
    ensures var s := Run(Init(cap, start), before); var e := Run(Next(s, Visit(h, persistent)), after);
            e.tick - s.clock > grace && SessionsOn(e.l.playback, h) == {} ==> Idle(e.l, h, false, e.tick, grace)
  {
    var s := Run(Init(cap, start), before);
    RunKeepsBehind(Init(cap, start), before);
    AloneKeepsClock(Next(s, Visit(h, persistent)), after, h);
  }

  /** A round keeps exactly the sessions that pinged within the time to live before it started. */
  lemma ExpireKeepsIff(s: State, ttl: nat, id: Sid)
    ensures var l := Next(s, Expire(ttl)).l;
            && (id in l.playback <==> id in s.l.playback && s.tick - s.l.playback[id].lastPing <= ttl)
            && (id in l.playback ==> l.playback[id] == s.l.playback[id]) && l.seen == s.l.seen && l.dropping == s.l.dropping
  {
  }

  // ---------------------------------------------------------------- admission

  ghost predicate BudgetNeverShrinks(s: State, steps: seq<Step>)
    decreases |steps|
  {
    steps != [] ==> (steps[0].Budget? ==> s.cap <= steps[0].cap) && BudgetNeverShrinks(Next(s, steps[0]), steps[1..])
  }

  lemma SmallerMap(a: map<Sid, Session>, b: map<Sid, Session>)
    requires a.Keys <= b.Keys
    ensures |a| <= |b|
  {
    assert |a.Keys| <= |b.Keys| by { SubsetSize(a.Keys, b.Keys); }
  }

  lemma SubsetSize<T>(a: set<T>, b: set<T>)
    requires a <= b
    ensures |a| <= |b|
  {
    assert b == a + (b - a);
  }

  lemma NextKeepsCap(s: State, step: Step)
    requires 0 < s.cap && |s.l.playback| <= s.cap && (step.Budget? ==> s.cap <= step.cap)
    ensures var s' := Next(s, step); 0 < s'.cap && |s'.l.playback| <= s'.cap
  {
    var s' := Next(s, step);
    if step.Keepalive? {
      if step.id in s.l.playback {
        assert s'.l.playback.Keys == s.l.playback.Keys;
      } else if s'.l.playback != s.l.playback {
        assert s'.l.playback.Keys == s.l.playback.Keys + {step.id};
      }
    } else {
      SmallerMap(s'.l.playback, s.l.playback);
    }
  }

  /** Sessions never exceed the derived cap while the budget does not shrink. */
  lemma {:induction false} SessionsWithinCap(s: State, steps: seq<Step>)
    requires 0 < s.cap && |s.l.playback| <= s.cap && BudgetNeverShrinks(s, steps)
    ensures |Run(s, steps).l.playback| <= Run(s, steps).cap
    decreases |steps|
  {
    if steps != [] {
      NextKeepsCap(s, steps[0]);
      SessionsWithinCap(Next(s, steps[0]), steps[1..]);
    }
  }

  // ---------------------------------------------------------------- the drop itself

  /** A claimed drop leaves no session and no clock on that torrent, and touches no other. */
  lemma ClaimLeavesNothing(l: Lifecycle, h: Hash, g: Hash)
    requires h !in l.dropping
    ensures SessionsOn(Claimed(l, h).playback, h) == {} && h !in Claimed(l, h).seen && h in Claimed(l, h).dropping
    ensures g != h ==> SessionsOn(Claimed(l, h).playback, g) == SessionsOn(l.playback, g)
  {
  }

  lemma NextAddsNoSession(s: State, step: Step, h: Hash)
    requires SessionsOn(s.l.playback, h) == {} && !(step.Keepalive? && step.h == h)
    ensures SessionsOn(Next(s, step).l.playback, h) == {}
  {
    var s' := Next(s, step);
    forall id | id in s'.l.playback ensures s'.l.playback[id].hash != h {
      if id in s.l.playback && s'.l.playback[id] == s.l.playback[id] {
        assert id !in SessionsOn(s.l.playback, h);
      }
    }
  }

  /** Between decision and claim, only a keepalive for that torrent can put a viewer in harm's way. */
  lemma {:induction false} QuietDropHitsNobody(s: State, steps: seq<Step>, h: Hash)
    requires SessionsOn(s.l.playback, h) == {}
    requires forall k :: 0 <= k < |steps| ==> !(steps[k].Keepalive? && steps[k].h == h)
    ensures SessionsOn(Run(s, steps).l.playback, h) == {}
    decreases |steps|
  {
    if steps != [] {
      NextAddsNoSession(s, steps[0], h);
      QuietDropHitsNobody(Next(s, steps[0]), steps[1..], h);
    }
  }

  /** The viewer had a session when the drop was claimed and has none after. */
  predicate Loses(s: State, id: Sid, h: Hash, file: string, now: int) {
    var watched := Next(s, Keepalive(id, h, file, now));
    id in watched.l.playback && id !in Next(watched, Claim(h)).l.playback
  }

  /**
   And it can, exactly when it is let in: after the decision to drop a torrent, a viewer who arrives before
   the claim loses the session if and only if the session was admitted and no drop was under way already.
   */
  lemma LateViewerLosesIff(s: State, id: Sid, h: Hash, file: string, now: int, grace: nat)
    requires Idle(s.l, h, false, s.tick, grace)
    ensures Loses(s, id, h, file, now) <==> Admits(s.l, id, s.cap) && h !in s.l.dropping
  {
  }

  /** A run that gets there: a torrent nobody watches is visited, ten ticks pass, and it is past a grace of five. */
  lemma {:induction false} LateViewerRun(h: Hash, id: Sid, file: string)
    ensures var s := Next(Next(Init(1, 0), Visit(h, false)), Tick(10));
            && IsRun(Init(1, 0), [Visit(h, false), Tick(10), Keepalive(id, h, file, 11), Claim(h)])
            && Idle(s.l, h, false, s.tick, 5) && Loses(s, id, h, file, 11)
  {
    var s0 := Init(1, 0);
    var s1 := Next(s0, Visit(h, false));
    var s2 := Next(s1, Tick(10));
    var s3 := Next(s2, Keepalive(id, h, file, 11));
    var r1, r2, r3 := [Tick(10), Keepalive(id, h, file, 11), Claim(h)], [Keepalive(id, h, file, 11), Claim(h)], [Claim(h)];
    assert [Visit(h, false), Tick(10), Keepalive(id, h, file, 11), Claim(h)][1..] == r1;
    assert r1[1..] == r2 && r2[1..] == r3 && r3[1..] == [];
    assert IsRun(s3, r3) && IsRun(s2, r2) && IsRun(s1, r1);
    LateViewerLosesIff(s2, id, h, file, 11, 5);
  }

  /** The sessions left when those of `todo` have not been looked at yet. */
  function Sifted(all: map<Sid, Session>, todo: set<Sid>, cutoff: int): map<Sid, Session> {
    map id | id in all && (id in todo || all[id].lastPing >= cutoff) :: all[id]
  }

  lemma SiftOne(all: map<Sid, Session>, todo: set<Sid>, cutoff: int, id: Sid)
    requires id in todo && id in all
    ensures var m := Sifted(all, todo, cutoff);
            && id in m && m[id] == all[id] && |m - {id}| == |m| - 1
            && Sifted(all, todo - {id}, cutoff) == if all[id].lastPing < cutoff then m - {id} else m
  {
    var m := Sifted(all, todo, cutoff);
    assert (m - {id}).Keys == m.Keys - {id};
    assert |(m - {id}).Keys| == |m - {id}| && |m.Keys| == |m|;
  }

  // ---------------------------------------------------------------- the object

  class HandlerContext {
    var playback: map<Sid, Session>
    var torrentSeen: map<Hash, int>
    var dropping: set<Hash>

    ghost function View(): Lifecycle
      reads this
    {
      Lifecycle(playback, torrentSeen, dropping)
    }

    constructor ()
      ensures View() == Lifecycle(map[], map[], {})
    {
      playback, torrentSeen, dropping := map[], map[], {};
    }

    /** `max` is the derived stream cap; an empty session id or hash is a bad request. */
    method HandleKeepalive(id: Sid, hash: Hash, file: string, now: int, max: nat) returns (status: int)
      modifies this`playback
      ensures View() == if id == "" || hash == "" then old(View()) else Kept(old(View()), id, Session(hash, file, now), max)
      ensures status == 204 <==> id != "" && hash != "" && (id in old(playback) || max == 0 || |old(playback)| < max)
      ensures status == 400 <==> id == "" || hash == ""
      ensures status != 204 ==> playback == old(playback) && (status == 400 || status == 429)
      ensures status == 204 ==> playback == old(playback)[id := Session(hash, file, now)]
    {
      if id == "" || hash == "" {
        return 400;
      }
      if id !in playback {
        if max > 0 && |playback| >= max {
          return 429;
        }
      }
      playback := playback[id := Session(hash, file, now)];
      return 204;
    }

    method ExpireSessions(cutoff: int) returns (expired: nat)
      modifies this`playback
      ensures View() == Expired(old(View()), cutoff)
      ensures expired == |old(playback)| - |playback|
    {
      expired := 0;
      var todo := playback.Keys;
      ghost var all := playback;
      while todo != {}
        invariant todo <= all.Keys
        invariant playback == Sifted(all, todo, cutoff) && expired == |all| - |playback|
      {
        var id := Pick(todo);
        SiftOne(all, todo, cutoff, id);
        if playback[id].lastPing < cutoff {
          playback := playback - {id};
          expired := expired + 1;
        }
        todo := todo - {id};
      }
    }

    method TorrentRefcount(hash: Hash) returns (n: nat)
      ensures n == |SessionsOn(playback, hash)|
    {
      n := 0;
      var todo := playback.Keys;
      ghost var counted: set<Sid> := {};
      while todo != {}
        invariant todo <= playback.Keys
        invariant counted == SessionsOn(playback, hash) - todo && n == |counted|
      {
        var id := Pick(todo);
        if playback[id].hash == hash {
          n := n + 1;
          counted := counted + {id};
        }
        todo := todo - {id};
      }
      assert counted == SessionsOn(playback, hash);
    }

    /** One torrent's turn in the reaper's round. */
    method Sweep(hash: Hash, persistent: bool, now: int, grace: nat) returns (drop: bool)
      modifies this`torrentSeen
      ensures View() == Visited(old(View()), hash, persistent, now)
      ensures drop == Idle(old(View()), hash, persistent, now, grace)
    {
      drop := false;
      if persistent {
        torrentSeen := torrentSeen[hash := now];
        return;
      }
      var n := TorrentRefcount(hash);
      assert n == 0 <==> SessionsOn(playback, hash) == {};
      if n > 0 {
        torrentSeen := torrentSeen[hash := now];
      } else if hash !in torrentSeen {
        torrentSeen := torrentSeen[hash := now];
      } else if now - torrentSeen[hash] > grace {
        drop := true;
      }
    }

    /** The lock-held claim of dropTorrent. */
    method ClaimDrop(hash: Hash) returns (claimed: bool)
      modifies this
      ensures View() == Claimed(old(View()), hash) && claimed == (hash !in old(dropping))
    {
      if hash in dropping {
        return false;
      }
      dropping := dropping + {hash};
      var todo := playback.Keys;
      ghost var all := playback;
      while todo != {}
        invariant todo <= all.Keys
        invariant playback == map id | id in all && (id in todo || all[id].hash != hash) :: all[id]
        invariant torrentSeen == old(torrentSeen) && dropping == old(dropping) + {hash}
      {
        var id := Pick(todo);
        if playback[id].hash == hash {
          playback := playback - {id};
        }
        todo := todo - {id};
      }
      torrentSeen := torrentSeen - {hash};
      return true;
    }
  }
}
