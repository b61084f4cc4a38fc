/**
 Readers parked on one piece, against every interleaving of its writers, completions, reloads and
 releases (storage/mempiece.go, with the wait loop of storage/reader.go).

 Each lock-held section is one step; completion is two, because the completion channel is closed
 after the lock is dropped.
 */
module Wakeups {
  import opened Common
  import opened MemPieces

  /** A reader waiting for [off, off+len), parked on notify channel `ch`. */
  datatype Waiter = Waiter(off: nat, len: nat, ch: nat)

  /** `completing` counts MarkComplete calls that have not yet closed the completion channel. */
  datatype State = State(m: Mem, waiters: map<nat, Waiter>, completing: nat)

  datatype Step =
    | Write(p: seq<byte>, off: nat, now: nat)
    | Complete(now: nat)
    | CloseDone
    | Load(src: seq<byte>, now: nat)
    | Release
    | Park(w: nat, woff: nat, wlen: nat)
    | Leave(w: nat)

  function Next(s: State, step: Step): State {
    match step
    case Write(p, off, now) => s.(m := Written(s.m, p, off, now))
    case Complete(now) => s.(m := Completed(s.m, now), completing := s.completing + 1)
    case CloseDone =>
      if s.completing == 0 then s else s.(m := DoneClosed(s.m), completing := s.completing - 1)
    case Load(src, now) => s.(m := Loaded(s.m, src, now))
    case Release => s.(m := Released(s.m))
    case Park(w, off, len) =>
      // a reader asks for at least one byte, and parks only when the range is missing
      if len == 0 || HasRange(s.m, off, len) then s
      else s.(waiters := s.waiters[w := Waiter(off, len, s.m.notify)])
    case Leave(w) => s.(waiters := s.waiters - {w})
  }

  function Run(s: State, steps: seq<Step>): State
    decreases |steps|
  {
    if steps == [] then s else Run(Next(s, steps[0]), steps[1..])
  }

  function Init(size: nat, now: nat): State { State(Fresh(size, now), map[], 0) }

  predicate CompletionAnnounced(s: State) { s.m.done || s.completing > 0 }

  ghost predicate Inv(s: State) {
    && (forall c: nat :: c in s.m.shut <==> c < s.m.notify)
    && (s.m.complete ==> CompletionAnnounced(s))
    && (s.m.data.None? ==> forall b :: 0 <= b < |s.m.written| ==> !s.m.written[b])
    && forall w :: w in s.waiters ==> s.waiters[w].len > 0 && s.waiters[w].ch <= s.m.notify
  }

  /** Every waiter parked on the open channel is still short of its range. */
  ghost predicate NotifySuffices(s: State) {
    forall w :: w in s.waiters && s.waiters[w].ch == s.m.notify ==>
      !HasRange(s.m, s.waiters[w].off, s.waiters[w].len)
  }

  /** The same, unless completion has been or is about to be announced on the other channel. */
  ghost predicate NobodyStranded(s: State) {
    CompletionAnnounced(s) || NotifySuffices(s)
  }

  /** A write past the end places nothing; unless the piece is marked complete, no range appears. */
  lemma EmptyBufferOffersNothing(m: Mem, p: seq<byte>, off: nat, now: nat, woff: nat, wlen: nat)
    requires off >= |Buffer(m)| && wlen > 0 && !HasRange(m, woff, wlen) && (m.data.None? ==> !m.complete)
    requires m.data.None? ==> forall b :: 0 <= b < |m.written| ==> !m.written[b]
    ensures !HasRange(Written(m, p, off, now), woff, wlen)
  {
    assert woff / BLOCK <= (woff + wlen - 1) / BLOCK;
    if m.data.None? && woff / BLOCK < |m.written| {
      assert !m.written[woff / BLOCK];
    }
  }

  lemma NextKeepsInv(s: State, step: Step)
    requires Inv(s) && NobodyStranded(s)
    ensures Inv(Next(s, step)) && NobodyStranded(Next(s, step))
  {
    var s' := Next(s, step);
    if step.Write? && step.off >= |Buffer(s.m)| && !CompletionAnnounced(s') {
      forall w | w in s.waiters && s.waiters[w].ch == s.m.notify
        ensures !HasRange(s'.m, s.waiters[w].off, s.waiters[w].len)
      {
        EmptyBufferOffersNothing(s.m, step.p, step.off, step.now, s.waiters[w].off, s.waiters[w].len);
      }
    }
  }

  lemma {:induction false} RunKeepsInv(s: State, steps: seq<Step>)
    requires Inv(s) && NobodyStranded(s)
    ensures Inv(Run(s, steps)) && NobodyStranded(Run(s, steps))
    decreases |steps|
  {
    if steps != [] {
      NextKeepsInv(s, steps[0]);
      RunKeepsInv(Next(s, steps[0]), steps[1..]);
    }
  }

  /**
   No lost wakeup, for the reader's actual select: in every run, a waiter whose range is available is
   parked on a closed notify channel, or the completion channel it also selects on is closed or about
   to be; and the notify channel in hand is the only one open.
   */
  lemma {:induction false} NoLostWakeup(size: nat, now: nat, steps: seq<Step>)
    ensures var s := Run(Init(size, now), steps);
            && (forall c: nat :: c in s.m.shut <==> c < s.m.notify)
            && forall w :: w in s.waiters && HasRange(s.m, s.waiters[w].off, s.waiters[w].len) ==>
                 s.waiters[w].ch in s.m.shut || CompletionAnnounced(s)
  {
    RunKeepsInv(Init(size, now), steps);
  }

  /**
   The notify channel alone. A write keeps its promise to parked readers except in one case: the piece
   was marked complete while empty, and the write starts past its end, so the buffer is allocated (and
   the piece becomes readable) on a path that wakes nobody.
   */
  lemma WriteKeepsNotifyIff(s: State, p: seq<byte>, off: nat, now: nat, w: nat)
    requires Inv(s) && NotifySuffices(s) && w in s.waiters && s.waiters[w].ch == s.m.notify
    ensures NotifySuffices(Next(s, Write(p, off, now))) <==>
            !(s.m.data.None? && s.m.complete && off >= s.m.size)
  {
    var s' := Next(s, Write(p, off, now));
    if s.m.data.None? && s.m.complete && off >= s.m.size {
      assert HasRange(s'.m, s.waiters[w].off, s.waiters[w].len);
    } else if off >= |Buffer(s.m)| {
      forall v | v in s.waiters && s.waiters[v].ch == s.m.notify
        ensures !HasRange(s'.m, s.waiters[v].off, s.waiters[v].len)
      {
        EmptyBufferOffersNothing(s.m, p, off, now, s.waiters[v].off, s.waiters[v].len);
      }
    }
  }

  ghost predicate WritesFit(steps: seq<Step>, size: nat) {
    forall k :: 0 <= k < |steps| && steps[k].Write? ==> steps[k].off < size
  }

  lemma NextKeepsNotify(s: State, step: Step)
    requires Inv(s) && NotifySuffices(s) && (step.Write? ==> step.off < s.m.size)
    ensures NotifySuffices(Next(s, step)) && Next(s, step).m.size == s.m.size
  {
    if step.Write? && step.off >= |Buffer(s.m)| {
      assert s.m.data.Some?;
    }
  }

  lemma {:induction false} RunKeepsNotify(s: State, steps: seq<Step>)
    requires Inv(s) && NotifySuffices(s) && WritesFit(steps, s.m.size)
    ensures NotifySuffices(Run(s, steps))
    decreases |steps|
  {
    if steps != [] {
      var s' := Next(s, steps[0]);
      NextKeepsInv(s, steps[0]);
      NextKeepsNotify(s, steps[0]);
      assert WritesFit(steps[1..], s.m.size) by {
        forall k | 0 <= k < |steps[1..]| && steps[1..][k].Write? ensures steps[1..][k].off < s.m.size {
          assert steps[1..][k] == steps[k + 1];
        }
      }
      RunKeepsNotify(s', steps[1..]);
    }
  }

  /** When writes start inside the piece, the notify channel alone never strands a reader. */
  lemma {:induction false} NoLostNotify(size: nat, now: nat, steps: seq<Step>)
    requires WritesFit(steps, size)
    ensures var s := Run(Init(size, now), steps);
            forall w :: w in s.waiters && HasRange(s.m, s.waiters[w].off, s.waiters[w].len) ==>
              s.waiters[w].ch in s.m.shut
  {
    RunKeepsInv(Init(size, now), steps);
    RunKeepsNotify(Init(size, now), steps);
  }

  /** The exceptional case is reachable: an empty piece marked complete, then a write past its end. */
  lemma LostNotifyExample()
    ensures var s := Run(Init(1, 0), [Complete(0), Park(7, 0, 1), Write([], 1, 0)]);
            7 in s.waiters && HasRange(s.m, 0, 1) && s.waiters[7].ch !in s.m.shut
  {
    var s0 := Init(1, 0);
    var s1, t1 := Next(s0, Complete(0)), [Park(7, 0, 1), Write([], 1, 0)];
    assert [Complete(0), Park(7, 0, 1), Write([], 1, 0)][1..] == t1;
    var s2, t2 := Next(s1, Park(7, 0, 1)), [Write([], 1, 0)];
    assert t1[1..] == t2;
    var s3 := Next(s2, Write([], 1, 0));
    assert t2[1..] == [];
    assert Run(s2, t2) == Run(s3, []) == s3;
  }
}
