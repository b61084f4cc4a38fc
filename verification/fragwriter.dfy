/** Timestamp repair and the one-packet-delay fragment writer of the copy path (media/segment.go). */
module FragWriters {
  import opened Common

  /** A demuxed packet, already rescaled to the output time base; either timestamp may be unset. */
  datatype Packet = Packet(stream: int, pts: Option<int>, dts: Option<int>, dur: int, data: seq<byte>)

  /** A packet with both timestamps in place. */
  datatype Timed = Timed(stream: int, pts: int, dts: int, dur: int, data: seq<byte>)

  /** The time a packet itself asks for: its dts, or its pts when that is all it has. */
  function Wanted(p: Packet): Option<int> { if p.dts.Some? then p.dts else p.pts }

  predicate HasTime(p: Packet) { Wanted(p).Some? }

  /** The repaired packet, given the last dts of its stream: strictly after it, and pts not before dts. */
  function Fixed(p: Packet, last: Option<int>): Timed
    requires HasTime(p)
  {
    var want := Wanted(p).value;
    var dts := if last.Some? && want <= last.value then last.value + 1 else want;
    Timed(p.stream, if p.pts.Some? && p.pts.value >= dts then p.pts.value else dts, dts, p.dur, p.data)
  }

  /** The same packet as it travels. */
  function Untimed(x: Timed): Packet { Packet(x.stream, Some(x.pts), Some(x.dts), x.dur, x.data) }

  // ---------------------------------------------------------------- one stream's specification

  function LastDts(s: seq<Timed>): Option<int> { if s == [] then None else Some(s[|s| - 1].dts) }

  /** The packets of one stream, repaired one after the other. */
  function Repaired(ps: seq<Packet>): (r: seq<Timed>)
    requires forall p :: p in ps ==> HasTime(p)
    ensures |r| == |ps|
  {
    if ps == [] then []
    else
      var r := Repaired(ps[..|ps| - 1]);
      r + [Fixed(ps[|ps| - 1], LastDts(r))]
  }

  /** Duration of packet `i`: up to its successor; the last one repeats the gap before it. */
  function Gap(s: seq<Timed>, i: nat): int
    requires i < |s|
  {
    if i + 1 < |s| then s[i + 1].dts - s[i].dts
    else if i > 0 then s[i].dts - s[i - 1].dts
    else if s[i].dur > 0 then s[i].dur else 1
  }

  /** The first `n` packets with their durations stamped. */
  function Stamped(s: seq<Timed>, n: nat): (r: seq<Timed>)
    requires n <= |s|
    ensures |r| == n
  {
    if n == 0 then [] else Stamped(s, n - 1) + [s[n - 1].(dur := Gap(s, n - 1))]
  }

  lemma {:induction false} StampedAt(s: seq<Timed>, n: nat, i: nat)
    requires i < n <= |s|
    ensures Stamped(s, n)[i] == s[i].(dur := Gap(s, i))
  {
    if i < n - 1 {
      StampedAt(s, n - 1, i);
    }
  }

  /** Stamps of packets that already have a successor do not change as more arrive. */
  lemma {:induction false} StampedStable(s: seq<Timed>, x: Timed, n: nat)
    requires n < |s|
    ensures Stamped(s + [x], n) == Stamped(s, n)
  {
    if n > 0 {
      StampedStable(s, x, n - 1);
    }
  }

  lemma {:induction false} RepairedIncreases(ps: seq<Packet>, i: nat)
    requires (forall p :: p in ps ==> HasTime(p)) && i + 1 < |ps|
    ensures Repaired(ps)[i].dts < Repaired(ps)[i + 1].dts
    decreases |ps|
  {
    var front := ps[..|ps| - 1];
    if i + 1 < |front| {
      RepairedIncreases(front, i);
    }
  }

  lemma {:induction false} RepairedAt(ps: seq<Packet>, i: nat)
    requires (forall p :: p in ps ==> HasTime(p)) && i < |ps|
    ensures var r := Repaired(ps);
            && r[i] == Fixed(ps[i], if i == 0 then None else Some(r[i - 1].dts))
            && r[i].pts >= r[i].dts && r[i].data == ps[i].data && r[i].stream == ps[i].stream
    decreases |ps|
  {
    var front := ps[..|ps| - 1];
    if i < |front| {
      RepairedAt(front, i);
    }
  }

  predicate Carries(x: Timed, p: Packet) { x.stream == p.stream && x.data == p.data && x.pts >= x.dts && x.dur > 0 }

  /**
   The output keeps the packet's own times wherever it can: its dts is the one the packet asks for if that
   is after the output before it, else the very next tick; its pts is the packet's if not before that.
   */
  predicate KeepsTime(x: Timed, p: Packet, before: Option<int>)
    requires HasTime(p)
  {
    && x.dts >= Wanted(p).value
    && x.dts == (if before.Some? && Wanted(p).value <= before.value then before.value + 1 else Wanted(p).value)
    && x.pts == (if p.pts.Some? && p.pts.value >= x.dts then p.pts.value else x.dts)
  }

  predicate Abuts(x: Timed, y: Timed) { x.dts < y.dts && x.dts + x.dur == y.dts }

  function DtsBefore(out: seq<Timed>, i: nat): Option<int>
    requires i <= |out|
  {
    if i == 0 then None else Some(out[i - 1].dts)
  }

  /**
   What a stream looks like in the output: the same packets in order, at their own times wherever these
   increase, strictly increasing dts, pts not before dts, positive durations, and every packet ending where
   the next begins.
   */
  ghost predicate Seamless(ps: seq<Packet>, out: seq<Timed>)
    requires forall p :: p in ps ==> HasTime(p)
  {
    && |out| == |ps|
    && (forall i :: 0 <= i < |ps| ==> Carries(out[i], ps[i]))
    && (forall i :: 0 <= i < |ps| ==> KeepsTime(out[i], ps[i], DtsBefore(out, i)))
    && (forall i, j :: 0 <= i < |ps| && j == i + 1 < |ps| ==> Abuts(out[i], out[j]))
  }

  lemma {:induction false} StampedIsSeamless(ps: seq<Packet>, out: seq<Timed>)
    requires (forall p :: p in ps ==> HasTime(p)) && out == Stamped(Repaired(ps), |ps|)
    ensures Seamless(ps, out)
  {
    AllCarry(ps, out);
    AllTimed(ps, out);
    AllAbut(ps, out);
  }

  lemma {:induction false} AllCarry(ps: seq<Packet>, out: seq<Timed>)
    requires (forall p :: p in ps ==> HasTime(p)) && out == Stamped(Repaired(ps), |ps|)
    ensures forall i :: 0 <= i < |ps| ==> Carries(out[i], ps[i])
  {
    forall i | 0 <= i < |ps| ensures Carries(out[i], ps[i]) {
      OneStamped(ps, i);
    }
  }

  lemma {:induction false} AllTimed(ps: seq<Packet>, out: seq<Timed>)
    requires (forall p :: p in ps ==> HasTime(p)) && out == Stamped(Repaired(ps), |ps|)
    ensures forall i :: 0 <= i < |ps| ==> KeepsTime(out[i], ps[i], DtsBefore(out, i))
  {
    forall i | 0 <= i < |ps| ensures KeepsTime(out[i], ps[i], DtsBefore(out, i)) {
      TimeStamped(ps, i);
    }
  }

  lemma {:induction false} AllAbut(ps: seq<Packet>, out: seq<Timed>)
    requires (forall p :: p in ps ==> HasTime(p)) && out == Stamped(Repaired(ps), |ps|)
    ensures forall i, j :: 0 <= i < |ps| && j == i + 1 < |ps| ==> Abuts(out[i], out[j])
  {
    forall i, j | 0 <= i < |ps| && j == i + 1 < |ps| ensures Abuts(out[i], out[j]) {
      TwoStamped(ps, i);
    }
  }

  lemma {:induction false} OneStamped(ps: seq<Packet>, i: nat)
    requires (forall p :: p in ps ==> HasTime(p)) && i < |ps|
    ensures Carries(Stamped(Repaired(ps), |ps|)[i], ps[i])
  {
    StampedAt(Repaired(ps), |ps|, i);
    RepairedAt(ps, i);
    if i + 1 < |ps| {
      RepairedIncreases(ps, i);
    } else if i > 0 {
      RepairedIncreases(ps, i - 1);
    }
  }

  lemma {:induction false} TimeStamped(ps: seq<Packet>, i: nat)
    requires (forall p :: p in ps ==> HasTime(p)) && i < |ps|
    ensures var out := Stamped(Repaired(ps), |ps|); KeepsTime(out[i], ps[i], DtsBefore(out, i))
  {
    StampedAt(Repaired(ps), |ps|, i);
    RepairedAt(ps, i);
    if i > 0 {
      StampedAt(Repaired(ps), |ps|, i - 1);
    }
  }

  lemma {:induction false} TwoStamped(ps: seq<Packet>, i: nat)
    requires (forall p :: p in ps ==> HasTime(p)) && i + 1 < |ps|
    ensures var out := Stamped(Repaired(ps), |ps|); Abuts(out[i], out[i + 1])
  {
    StampedAt(Repaired(ps), |ps|, i);
    StampedAt(Repaired(ps), |ps|, i + 1);
    RepairedIncreases(ps, i);
  }

  // ---------------------------------------------------------------- streams interleaved

  /** The packets of stream `si`, in order. */
  function Of(si: int, pkts: seq<Packet>): (r: seq<Packet>)
    ensures forall p :: p in r ==> p in pkts
  {
    if pkts == [] then []
    else
      var r, p := Of(si, pkts[..|pkts| - 1]), pkts[|pkts| - 1];
      if p.stream == si then r + [p] else r
  }

  function Out(si: int, out: seq<Timed>): seq<Timed> {
    if out == [] then []
    else
      var r, x := Out(si, out[..|out| - 1]), out[|out| - 1];
      if x.stream == si then r + [x] else r
  }

  lemma {:induction false} OutAppend(si: int, out: seq<Timed>, x: Timed)
    ensures Out(si, out + [x]) == if x.stream == si then Out(si, out) + [x] else Out(si, out)
  {
    assert (out + [x])[..|out|] == out;
  }

  /** Timestamp table, held packets, last gaps and what the muxer has received. */
  datatype Frag = Frag(last: map<int, int>, held: map<int, Timed>, lastDur: map<int, int>, out: seq<Timed>)

  /** Stream `si` after its packets `ps`: all but the last are out, stamped; the last is held. */
  ghost predicate StreamState(f: Frag, si: int, ps: seq<Packet>)
    requires forall p :: p in ps ==> HasTime(p)
  {
    var s := Repaired(ps);
    if ps == [] then si !in f.last && si !in f.held && si !in f.lastDur && Out(si, f.out) == []
    else
      && si in f.last && f.last[si] == s[|s| - 1].dts
      && si in f.held && f.held[si] == s[|s| - 1] && f.held[si].stream == si
      && Out(si, f.out) == Stamped(s, |s| - 1)
      && (if |s| > 1 then si in f.lastDur && f.lastDur[si] == s[|s| - 1].dts - s[|s| - 2].dts else si !in f.lastDur)
  }

  function Sanitized(f: Frag, p: Packet): Timed
    requires HasTime(p)
  {
    Fixed(p, if p.stream in f.last then Some(f.last[p.stream]) else None)
  }

  /** sanitizeCopyDTS followed by fragWriter.write. */
  function Fed(f: Frag, p: Packet): Frag
    requires HasTime(p)
  {
    var x, si := Sanitized(f, p), p.stream;
    if si !in f.held then f.(last := f.last[si := x.dts], held := f.held[si := x])
    else
      var prev := f.held[si];
      var d := x.dts - prev.dts;
      f.(last := f.last[si := x.dts], held := f.held[si := x],
         lastDur := if d > 0 then f.lastDur[si := d] else f.lastDur,
         out := f.out + [if d > 0 then prev.(dur := d) else prev])
  }

  lemma {:induction false} RepairedMore(ps: seq<Packet>, p: Packet)
    requires HasTime(p) && forall q :: q in ps ==> HasTime(q)
    ensures Repaired(ps + [p]) == Repaired(ps) + [Fixed(p, LastDts(Repaired(ps)))]
  {
    assert (ps + [p])[..|ps|] == ps;
  }

  lemma {:induction false} FedFirst(f: Frag, p: Packet)
    requires HasTime(p) && StreamState(f, p.stream, [])
    ensures StreamState(Fed(f, p), p.stream, [p])
  {
    RepairedMore([], p);
    assert [] + [p] == [p];
    assert Stamped(Repaired([p]), 0) == [];
  }

  lemma {:induction false} FedNext(f: Frag, p: Packet, ps: seq<Packet>)
    requires HasTime(p) && (forall q :: q in ps ==> HasTime(q)) && ps != [] && StreamState(f, p.stream, ps)
    ensures StreamState(Fed(f, p), p.stream, ps + [p])
  {
    var s, prev := Repaired(ps), f.held[p.stream];
    var x := Fixed(p, LastDts(s));
    RepairedMore(ps, p);
    StampedStable(s, x, |s| - 1);
    OutAppend(p.stream, f.out, prev.(dur := x.dts - prev.dts));
    assert Stamped(s + [x], |s|) == Stamped(s, |s| - 1) + [prev.(dur := x.dts - prev.dts)];
  }

  lemma {:induction false} FedOwnStream(f: Frag, p: Packet, ps: seq<Packet>)
    requires HasTime(p) && (forall q :: q in ps ==> HasTime(q)) && StreamState(f, p.stream, ps)
    ensures StreamState(Fed(f, p), p.stream, ps + [p])
  {
    if ps == [] {
      FedFirst(f, p);
      assert ps + [p] == [p];
    } else {
      FedNext(f, p, ps);
    }
  }

  lemma {:induction false} FedOtherStream(f: Frag, p: Packet, si: int, ps: seq<Packet>)
    requires HasTime(p) && (forall q :: q in ps ==> HasTime(q)) && StreamState(f, si, ps) && si != p.stream
    requires p.stream in f.held ==> f.held[p.stream].stream == p.stream
    ensures StreamState(Fed(f, p), si, ps)
  {
    if p.stream in f.held {
      var prev, d := f.held[p.stream], Sanitized(f, p).dts - f.held[p.stream].dts;
      OutAppend(si, f.out, if d > 0 then prev.(dur := d) else prev);
    }
  }

  /** Every stream, at once. */
  ghost predicate AllStreams(f: Frag, pkts: seq<Packet>)
    requires forall p :: p in pkts ==> HasTime(p)
  {
    forall si: int :: StreamState(f, si, Of(si, pkts))
  }

  lemma {:induction false} OfAppend(si: int, pkts: seq<Packet>, p: Packet)
    ensures Of(si, pkts + [p]) == if p.stream == si then Of(si, pkts) + [p] else Of(si, pkts)
  {
    assert (pkts + [p])[..|pkts|] == pkts;
  }

  lemma {:induction false} FedAllStreams(f: Frag, pkts: seq<Packet>, p: Packet)
    requires (forall q :: q in pkts ==> HasTime(q)) && HasTime(p) && AllStreams(f, pkts)
    ensures AllStreams(Fed(f, p), pkts + [p])
  {
    forall si: int ensures StreamState(Fed(f, p), si, Of(si, pkts + [p])) {
      OfAppend(si, pkts, p);
      assert StreamState(f, si, Of(si, pkts)) && StreamState(f, p.stream, Of(p.stream, pkts));
      if si == p.stream {
        FedOwnStream(f, p, Of(si, pkts));
      } else {
        FedOtherStream(f, p, si, Of(si, pkts));
      }
    }
  }

  /** The last packet of a stream, stamped with the gap before it, or its own duration, or one tick. */
  function Closing(f: Frag, si: int): Timed
    requires si in f.held
  {
    var dur := if si in f.lastDur then f.lastDur[si] else 0;
    var prev := f.held[si];
    prev.(dur := if dur > 0 then dur else if prev.dur > 0 then prev.dur else 1)
  }

  lemma {:induction false} ClosingStamps(f: Frag, si: int, ps: seq<Packet>)
    requires (forall p :: p in ps ==> HasTime(p)) && StreamState(f, si, ps) && ps != []
    ensures Out(si, f.out) + [Closing(f, si)] == Stamped(Repaired(ps), |ps|)
  {
    if |ps| > 1 {
      RepairedIncreases(ps, |ps| - 2);
    }
  }

  // ---------------------------------------------------------------- the object

  class FragWriter {
    var last: map<int, int>
    var held: map<int, Timed>
    var lastDur: map<int, int>
    var out: seq<Timed>

    ghost function View(): Frag
      reads this
    {
      Frag(last, held, lastDur, out)
    }

    constructor ()
      ensures View() == Frag(map[], map[], map[], [])
    {
      last, held, lastDur, out := map[], map[], map[], [];
    }

    method Feed(p: Packet)
      requires HasTime(p)
      modifies this
      ensures View() == Fed(old(View()), p)
    {
      var x := Sanitize(p);
      Write(Timed(x.stream, x.pts.value, x.dts.value, x.dur, x.data));
    }

    /** sanitizeCopyDTS; a packet with neither timestamp is left as it is, and so is the table. */
    method Sanitize(p: Packet) returns (x: Packet)
      modifies this`last
      ensures HasTime(p) ==> x == Untimed(Sanitized(old(View()), p)) && last == old(last)[p.stream := x.dts.value]
      ensures !HasTime(p) ==> x == p && last == old(last)
    {
      var dts := p.dts;
      if dts.None? {
        dts := p.pts;
      }
      if p.stream in last && dts.Some? && dts.value <= last[p.stream] {
        dts := Some(last[p.stream] + 1);
      }
      if dts.None? {
        return p;
      }
      last := last[p.stream := dts.value];
      x := p.(dts := dts, pts := if p.pts.None? || p.pts.value < dts.value then dts else p.pts);
    }

    method Write(x: Timed)
      modifies this`held, this`lastDur, this`out
      ensures held == old(held)[x.stream := x]
      ensures if x.stream !in old(held) then lastDur == old(lastDur) && out == old(out)
              else
                var prev := old(held)[x.stream];
                var d := x.dts - prev.dts;
                && lastDur == (if d > 0 then old(lastDur)[x.stream := d] else old(lastDur))
                && out == old(out) + [if d > 0 then prev.(dur := d) else prev]
    {
      if x.stream in held {
        var prev := held[x.stream];
        var d := x.dts - prev.dts;
        if d > 0 {
          prev := prev.(dur := d);
          lastDur := lastDur[x.stream := d];
        }
        out := out + [prev];
      }
      held := held[x.stream := x];
    }

    /** Flushes every held packet, in whatever order the map yields them. */
    method Finish()
      requires forall si :: si in held ==> held[si].stream == si
      modifies this`held, this`out
      ensures held == map[]
      ensures forall si: int :: Out(si, out) == Out(si, old(out)) + if si in old(held) then [Closing(old(View()), si)] else []
    {
      ghost var f := View();
      while held != map[]
        invariant Flushing(f, View())
        decreases |held|
      {
        var si := Pick(held.Keys);
        FlushOne(f, View(), si);
        Flush(si);
      }
    }

    /** One held packet goes out with the gap before it, or its own duration, or one tick. */
    method Flush(si: int)
      requires si in held
      modifies this`held, this`out
      ensures View() == AfterFlush(old(View()), si)
    {
      var dur := if si in lastDur then lastDur[si] else 0;
      var prev := held[si];
      if dur <= 0 {
        dur := prev.dur;
      }
      if dur <= 0 {
        dur := 1;
      }
      out := out + [prev.(dur := dur)];
      held := held - {si};
    }
  }

  function AfterFlush(f: Frag, si: int): Frag
    requires si in f.held
  {
    f.(held := f.held - {si}, out := f.out + [Closing(f, si)])
  }

  /** On the way from `f`: every stream no longer held has had its last packet flushed, and no other. */
  ghost predicate Flushing(f: Frag, g: Frag) {
    match g
    case Frag(last, held, lastDur, out) =>
      && held.Keys <= f.held.Keys && lastDur == f.lastDur && last == f.last && (forall si :: si in held ==> held[si] == f.held[si])
      && (forall si: int :: Out(si, out) == Out(si, f.out) + if si in f.held && si !in held then [Closing(f, si)] else [])
  }

  lemma {:induction false} FlushOne(f: Frag, g: Frag, si: int)
    requires Flushing(f, g) && si in g.held && f.held[si].stream == si
    ensures Flushing(f, AfterFlush(g, si))
  {
    assert Closing(g, si) == Closing(f, si);
    forall sj: int
      ensures Out(sj, g.out + [Closing(f, si)]) == Out(sj, f.out) + if sj in f.held && sj !in g.held - {si} then [Closing(f, sj)] else []
    {
      OutAppend(sj, g.out, Closing(f, si));
    }
  }

  /**
   The copy path over a whole segment: for any interleaving of streams whose packets carry a timestamp,
   every stream comes out complete, in order and seamless.
   */
  method ProduceSegment(pkts: seq<Packet>) returns (out: seq<Timed>)
    requires forall p :: p in pkts ==> HasTime(p)
    ensures forall si: int :: Seamless(Of(si, pkts), Out(si, out))
  {
    var fw := new FragWriter();
    for k := 0 to |pkts|
      invariant AllStreams(fw.View(), pkts[..k])
    {
      assert pkts[..k + 1] == pkts[..k] + [pkts[k]];
      FedAllStreams(fw.View(), pkts[..k], pkts[k]);
      fw.Feed(pkts[k]);
    }
    assert pkts[..|pkts|] == pkts;
    ghost var f := fw.View();
    forall si | si in f.held ensures f.held[si].stream == si {
      assert StreamState(f, si, Of(si, pkts));
    }
    fw.Finish();
    out := fw.out;
    forall si: int ensures Seamless(Of(si, pkts), Out(si, out)) {
      assert StreamState(f, si, Of(si, pkts));
      StreamEndsSeamless(f, si, Of(si, pkts), Out(si, out));
    }
  }

  lemma {:induction false} StreamEndsSeamless(f: Frag, si: int, ps: seq<Packet>, out: seq<Timed>)
    requires (forall p :: p in ps ==> HasTime(p)) && StreamState(f, si, ps)
    requires out == Out(si, f.out) + if si in f.held then [Closing(f, si)] else []
    ensures Seamless(ps, out)
  {
    if ps != [] {
      ClosingStamps(f, si, ps);
      StampedIsSeamless(ps, out);
    }
  }
}
