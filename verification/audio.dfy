/**
 Slicing one continuous AAC encode into segments on the shared grid (media/audiocont.go,
 handlers/hlsaudiocont.go).
 */
module AudioSlices {
  import opened Common
  import opened SegLists

  datatype Frame = Frame(pts: int, dur: int, data: seq<byte>)

  /** Go's int64(x): truncation toward zero. */
  function Trunc(x: real): int { if x >= 0.0 then x.Floor else -((-x).Floor) }

  lemma TruncMonotone(x: real, y: real)
    requires x <= y
    ensures Trunc(x) <= Trunc(y)
  {
  }

  /** First sample of segment `n`. */
  function Lo(s: SegList, sampleRate: nat, n: nat): int
    requires s.starts != []
  {
    Trunc(SrcStart(s, n) * sampleRate as real + 0.5)
  }

  /** One past the last sample of segment `n`. */
  function Hi(s: SegList, sampleRate: nat, n: nat): int
    requires s.starts != []
  {
    Trunc((SrcStart(s, n) + Extinf(s, n)) * sampleRate as real + 0.5)
  }

  /**
   A boundary is the sample nearest its time, halves going up, as long as the time is not before zero;
   before that it is one of the two samples after the time.
   */
  lemma BoundaryIsNearest(s: SegList, sampleRate: nat, n: nat, from: real, to: real)
    requires s.starts != []
    requires from == SrcStart(s, n) * sampleRate as real && to == (SrcStart(s, n) + Extinf(s, n)) * sampleRate as real
    ensures NearestSample(from, Lo(s, sampleRate, n)) && NearestSample(to, Hi(s, sampleRate, n))
  {
    LoRounds(s, sampleRate, n, from);
    HiRounds(s, sampleRate, n, to);
    RoundsToNearest(from, Lo(s, sampleRate, n));
    RoundsToNearest(to, Hi(s, sampleRate, n));
  }

  lemma LoRounds(s: SegList, sampleRate: nat, n: nat, x: real)
    requires s.starts != [] && x == SrcStart(s, n) * sampleRate as real
    ensures Lo(s, sampleRate, n) == Trunc(x + 0.5)
  {
  }

  lemma HiRounds(s: SegList, sampleRate: nat, n: nat, x: real)
    requires s.starts != [] && x == (SrcStart(s, n) + Extinf(s, n)) * sampleRate as real
    ensures Hi(s, sampleRate, n) == Trunc(x + 0.5)
  {
  }

  predicate NearestSample(x: real, k: int) {
    if x >= -0.5 then k as real - 0.5 <= x < k as real + 0.5 else x + 0.5 <= k as real < x + 1.5
  }

  lemma RoundsToNearest(x: real, k: int)
    requires k == Trunc(x + 0.5)
    ensures NearestSample(x, k)
  {
  }

  /** Neighbouring segments meet at the same sample. */
  lemma BoundariesMeet(s: SegList, sampleRate: nat, n: nat)
    requires ValidGrid(s) && n + 1 < |s.starts|
    ensures Hi(s, sampleRate, n) == Lo(s, sampleRate, n + 1)
  {
    WindowsAbut(s, n);
  }

  lemma SegmentNotNegative(s: SegList, sampleRate: nat, n: nat)
    requires ValidGrid(s) && n < |s.starts|
    ensures Lo(s, sampleRate, n) <= Hi(s, sampleRate, n)
  {
    WindowsAbut(s, n);
    ScaledOrder(SrcStart(s, n), Extinf(s, n), sampleRate as real);
  }

  /** Scaling and rounding keep order. */
  lemma ScaledOrder(a: real, d: real, r: real)
    requires d >= 0.0 && r >= 0.0
    ensures Trunc(a * r + 0.5) <= Trunc((a + d) * r + 0.5)
  {
    ScaledSum(a, d, r);
    TruncMonotone(a * r + 0.5, (a + d) * r + 0.5);
  }

  lemma ScaledSum(a: real, d: real, r: real)
    requires d >= 0.0 && r >= 0.0
    ensures a * r <= (a + d) * r
  {
    assert (a + d) * r == a * r + d * r;
    assert d * r >= 0.0;
  }

  predicate Monotone(frames: seq<Frame>) {
    forall i, j :: 0 <= i < j < |frames| ==> frames[i].pts <= frames[j].pts
  }

  /** Of the first `n` frames, those with lo <= pts < hi, each once and in order. */
  function WindowOf(frames: seq<Frame>, n: nat, lo: int, hi: int): seq<Frame>
    requires n <= |frames|
  {
    if n == 0 then []
    else if lo <= frames[n - 1].pts < hi then WindowOf(frames, n - 1, lo, hi) + [frames[n - 1]]
    else WindowOf(frames, n - 1, lo, hi)
  }

  function Window(frames: seq<Frame>, lo: int, hi: int): seq<Frame> { WindowOf(frames, |frames|, lo, hi) }

  /** Frames before index `i` start before `x`, the others at or after it. */
  ghost predicate Boundary(frames: seq<Frame>, x: int, i: nat) {
    && i <= |frames|
    && (forall k :: 0 <= k < i ==> frames[k].pts < x)
    && (forall k :: i <= k < |frames| ==> frames[k].pts >= x)
  }

  lemma {:induction false} WindowOfSlice(frames: seq<Frame>, n: nat, lo: int, hi: int, i: nat, j: nat)
    requires n <= |frames| && Boundary(frames, lo, i) && Boundary(frames, hi, j) && i <= j
    ensures WindowOf(frames, n, lo, hi) == frames[Min(i, n)..Min(j, n)]
  {
    if n > 0 {
      WindowOfSlice(frames, n - 1, lo, hi, i, j);
    }
  }

  /** A window holds exactly the frames that start in it. */
  lemma {:induction false} WindowHas(frames: seq<Frame>, n: nat, lo: int, hi: int, f: Frame)
    requires n <= |frames|
    ensures f in WindowOf(frames, n, lo, hi) <==> lo <= f.pts < hi && f in frames[..n]
  {
    if n > 0 {
      WindowHas(frames, n - 1, lo, hi, f);
      assert frames[..n] == frames[..n - 1] + [frames[n - 1]];
    }
  }

  /** In a monotone list a window is a slice. */
  lemma WindowIsSlice(frames: seq<Frame>, lo: int, hi: int, i: nat, j: nat)
    requires Boundary(frames, lo, i) && Boundary(frames, hi, j) && i <= j
    ensures Window(frames, lo, hi) == frames[i..j]
  {
    WindowOfSlice(frames, |frames|, lo, hi, i, j);
  }

  lemma {:induction false} WindowOfNone(frames: seq<Frame>, n: nat, from: nat, lo: int, hi: int)
    requires from <= n <= |frames| && forall k :: from <= k < n ==> !(lo <= frames[k].pts < hi)
    ensures WindowOf(frames, n, lo, hi) == WindowOf(frames, from, lo, hi)
  {
    if from < n {
      WindowOfNone(frames, n - 1, from, lo, hi);
    }
  }

  lemma {:induction false} WindowOfPrefix(frames: seq<Frame>, more: seq<Frame>, n: nat, lo: int, hi: int)
    requires n <= |frames|
    ensures WindowOf(frames + more, n, lo, hi) == WindowOf(frames, n, lo, hi)
  {
    if n > 0 {
      WindowOfPrefix(frames, more, n - 1, lo, hi);
    }
  }

  /** sort.Search: the first frame at or past `lo`. */
  method SearchFrom(frames: seq<Frame>, lo: int) returns (i: nat)
    requires Monotone(frames)
    ensures Boundary(frames, lo, i)
  {
    i := 0;
    var j := |frames|;
    while i < j
      invariant 0 <= i <= j <= |frames|
      invariant forall k :: 0 <= k < i ==> frames[k].pts < lo
      invariant forall k :: j <= k < |frames| ==> frames[k].pts >= lo
    {
      var h := (i + j) / 2;
      if frames[h].pts < lo {
        i := h + 1;
      } else {
        j := h;
      }
    }
  }

  /** The copy-slice of the cache for one segment, by binary search and a scan; an empty one is an error. */
  method SliceFrames(frames: seq<Frame>, lo: int, hi: int) returns (r: Option<seq<Frame>>)
    requires Monotone(frames)
    ensures r == if Window(frames, lo, hi) == [] then None else Some(Window(frames, lo, hi))
  {
    var i := SearchFrom(frames, lo);
    var first, snap := i, [];
    while i < |frames| && frames[i].pts < hi
      invariant first <= i <= |frames|
      invariant snap == frames[first..i]
      invariant forall k :: first <= k < i ==> lo <= frames[k].pts < hi
    {
      snap := snap + [frames[i]];
      i := i + 1;
    }
    if lo <= hi {
      assert Boundary(frames, hi, i);
      WindowIsSlice(frames, lo, hi, first, i);
    } else {
      WindowOfNone(frames, |frames|, 0, lo, hi);
    }
    r := if snap == [] then None else Some(snap);
  }

  // ---------------------------------------------------------------- the segments partition the track

  lemma {:induction false} BoundaryExists(frames: seq<Frame>, x: int) returns (i: nat)
    requires Monotone(frames)
    ensures Boundary(frames, x, i)
    decreases |frames|
  {
    if frames == [] || frames[|frames| - 1].pts < x {
      i := |frames|;
    } else {
      i := BoundaryExists(frames[..|frames| - 1], x);
    }
  }

  lemma BoundariesOrdered(frames: seq<Frame>, x: int, y: int, i: nat, j: nat)
    requires Boundary(frames, x, i) && Boundary(frames, y, j) && x <= y
    ensures i <= j
  {
    assert j < |frames| ==> frames[j].pts >= y;
  }

  lemma WindowsJoin(frames: seq<Frame>, a: int, b: int, c: int)
    requires Monotone(frames) && a <= b <= c
    ensures Window(frames, a, b) + Window(frames, b, c) == Window(frames, a, c)
  {
    var i := BoundaryExists(frames, a);
    var j := BoundaryExists(frames, b);
    var k := BoundaryExists(frames, c);
    BoundariesOrdered(frames, a, b, i, j);
    BoundariesOrdered(frames, b, c, j, k);
    WindowIsSlice(frames, a, b, i, j);
    WindowIsSlice(frames, b, c, j, k);
    WindowIsSlice(frames, a, c, i, k);
  }

  /** What a client gets by fetching segments i..j in turn. */
  function Fetched(frames: seq<Frame>, s: SegList, sampleRate: nat, i: nat, j: int): seq<Frame>
    requires s.starts != []
    decreases j - i
  {
    if i > j then []
    else Fetched(frames, s, sampleRate, i, j - 1) + Window(frames, Lo(s, sampleRate, j), Hi(s, sampleRate, j))
  }

  lemma {:induction false} LoBelowHi(s: SegList, sampleRate: nat, i: nat, j: nat)
    requires ValidGrid(s) && i <= j < |s.starts|
    ensures Lo(s, sampleRate, i) <= Hi(s, sampleRate, j)
    decreases j - i
  {
    SegmentNotNegative(s, sampleRate, j);
    if i < j {
      LoBelowHi(s, sampleRate, i, j - 1);
      BoundariesMeet(s, sampleRate, j - 1);
    }
  }

  lemma JoinPoints(s: SegList, sampleRate: nat, i: nat, j: nat)
    requires ValidGrid(s) && i < j < |s.starts|
    ensures Lo(s, sampleRate, i) <= Hi(s, sampleRate, j - 1) == Lo(s, sampleRate, j) <= Hi(s, sampleRate, j)
  {
    BoundariesMeet(s, sampleRate, j - 1);
    LoBelowHi(s, sampleRate, i, j - 1);
    SegmentNotNegative(s, sampleRate, j);
  }

  /** No overlap and no gap: segments i..j together are exactly the frames from lo(i) up to hi(j). */
  lemma {:induction false} SegmentsPartition(frames: seq<Frame>, s: SegList, sampleRate: nat, i: nat, j: nat)
    requires Monotone(frames) && ValidGrid(s) && i <= j < |s.starts|
    ensures Fetched(frames, s, sampleRate, i, j) == Window(frames, Lo(s, sampleRate, i), Hi(s, sampleRate, j))
    decreases j - i
  {
    if i < j {
      SegmentsPartition(frames, s, sampleRate, i, j - 1);
      JoinPoints(s, sampleRate, i, j);
      WindowsJoin(frames, Lo(s, sampleRate, i), Hi(s, sampleRate, j - 1), Hi(s, sampleRate, j));
    } else {
      assert Fetched(frames, s, sampleRate, i, i - 1) == [];
    }
  }

  // ---------------------------------------------------------------- serving before the encode ends

  /** Each frame starts no earlier than the one before it ends. */
  predicate Contiguous(frames: seq<Frame>) {
    && (forall i :: 0 <= i < |frames| ==> frames[i].dur >= 0)
    && (forall i, j :: 0 <= i < |frames| && 0 <= j < |frames| && j == i + 1 ==> frames[j].pts >= frames[i].pts + frames[i].dur)
  }

  /** How far the encode has got; zero before the first frame. */
  function ProducedTo(frames: seq<Frame>): int {
    if frames == [] then 0 else frames[|frames| - 1].pts + frames[|frames| - 1].dur
  }

  /** The encoder's output, appended packet by packet; priming is taken off every timestamp. */
  class ContinuousAAC {
    var frames: seq<Frame>
    var producedTo: int
    const frameSize: nat

    ghost predicate Valid()
      reads this
    {
      producedTo == ProducedTo(frames)
    }

    constructor (frameSize: nat)
      ensures Valid() && frames == [] && this.frameSize == frameSize
    {
      frames, producedTo, this.frameSize := [], 0, frameSize;
    }

    method Append(pts: int, priming: int, data: seq<byte>)
      requires Valid()
      modifies this
      ensures Valid() && frames == old(frames) + [Frame(pts - priming, frameSize, data)] && producedTo == pts - priming + frameSize
    {
      frames := frames + [Frame(pts - priming, frameSize, data)];
      producedTo := pts - priming + frameSize;
    }
  }

  lemma {:induction false} LaterFramesStartLater(frames: seq<Frame>, i: nat, j: nat)
    requires Contiguous(frames) && i < j < |frames|
    ensures frames[j].pts >= frames[i].pts + frames[i].dur
    decreases j - i
  {
    assert frames[i + 1].pts >= frames[i].pts + frames[i].dur;
    if i + 1 < j {
      LaterFramesStartLater(frames, i + 1, j);
    }
  }

  /** How one request for a window is answered: not yet, the frames, or an error because there are none. */
  datatype Reply = NotYet | Served(frames: seq<Frame>) | NoFrames

  function ReplyTo(frames: seq<Frame>, complete: bool, lo: int, hi: int): Reply {
    if !complete && ProducedTo(frames) < hi then NotYet
    else if Window(frames, lo, hi) == [] then NoFrames
    else Served(Window(frames, lo, hi))
  }

  /** One turn of the wait loop: the readiness test, then the slice. */
  method ProduceSegment(cont: ContinuousAAC, complete: bool, lo: int, hi: int) returns (r: Reply)
    requires cont.Valid() && Monotone(cont.frames)
    ensures r == ReplyTo(cont.frames, complete, lo, hi)
  {
    if complete || cont.producedTo >= hi {
      var snap := SliceFrames(cont.frames, lo, hi);
      return if snap.None? then NoFrames else Served(snap.value);
    }
    return NotYet;
  }

  /** A request waits exactly while the encode is running and its last frame, if any, ends before the window does. */
  lemma WaitsIff(frames: seq<Frame>, complete: bool, lo: int, hi: int)
    ensures ReplyTo(frames, complete, lo, hi).NotYet? <==>
            !complete && (if frames == [] then hi > 0 else frames[|frames| - 1].pts + frames[|frames| - 1].dur < hi)
  {
  }

  /** Once a frame is out and the encode has passed the end of a window, nothing more will fall into it. */
  lemma WindowIsFinal(frames: seq<Frame>, more: seq<Frame>, lo: int, hi: int)
    requires Contiguous(frames + more) && ProducedTo(frames) >= hi && frames != []
    ensures Window(frames, lo, hi) == Window(frames + more, lo, hi)
  {
    var all := frames + more;
    forall k | |frames| <= k < |all| ensures all[k].pts >= hi {
      LaterFramesStartLater(all, |frames| - 1, k);
    }
    WindowOfNone(all, |all|, |frames|, lo, hi);
    WindowOfPrefix(frames, more, |frames|, lo, hi);
  }

  /** Whatever is served while the encode is running is what the finished encode would serve, for every window. */
  lemma EarlySliceIsFinal(frames: seq<Frame>, more: seq<Frame>, lo: int, hi: int)
    requires Contiguous(frames + more) && ReplyTo(frames, false, lo, hi).Served?
    ensures ReplyTo(frames + more, true, lo, hi) == ReplyTo(frames, false, lo, hi)
  {
    WindowIsFinal(frames, more, lo, hi);
  }

  /**
   Exactly when a request is refused that would have been served later: nothing has been encoded, the window
   ends at or before time zero (where `producedTo` starts), and it gets a frame after all.
   */
  lemma RefusedTooEarlyIff(frames: seq<Frame>, more: seq<Frame>, lo: int, hi: int)
    requires Contiguous(frames + more)
    ensures ReplyTo(frames, false, lo, hi).NoFrames? && ReplyTo(frames + more, true, lo, hi).Served?
            <==> frames == [] && hi <= 0 && Window(more, lo, hi) != []
  {
    if frames == [] {
      assert frames + more == more;
    } else if ProducedTo(frames) >= hi {
      WindowIsFinal(frames, more, lo, hi);
    }
  }

  /** Two six-second segments of a file whose first keyframe is six seconds before time zero. */
  function EarlyGrid(): SegList { SegList([0.0, 6.0], 12.0, -6.0, false) }

  /** A grid with such a window: asked for before the first frame is out, its first segment is refused. */
  lemma EarlyGridRefused(s: SegList, sampleRate: nat, f: Frame)
    requires s == EarlyGrid() && sampleRate > 0 && f.dur >= 0 && f.pts == Lo(s, sampleRate, 0)
    ensures ValidGrid(s) && Hi(s, sampleRate, 0) == 0
    ensures var lo, hi := Lo(s, sampleRate, 0), Hi(s, sampleRate, 0);
            ReplyTo([], false, lo, hi) == NoFrames && ReplyTo([f], true, lo, hi) == Served([f])
  {
    assert s.starts[0] == 0.0 && s.starts[1] == 6.0;
    assert SrcStart(s, 0) == -6.0 && Extinf(s, 0) == 6.0;
    FirstEndsAtZero(sampleRate as real);
    OneFrame(f, Lo(s, sampleRate, 0), Hi(s, sampleRate, 0));
  }

  lemma OneFrame(f: Frame, lo: int, hi: int)
    requires lo <= f.pts < hi
    ensures Window([f], lo, hi) == [f] && Window([], lo, hi) == []
  {
    assert WindowOf([f], 0, lo, hi) == [] && WindowOf([f], 1, lo, hi) == [f];
  }

  lemma FirstEndsAtZero(r: real)
    requires r >= 1.0
    ensures Trunc((-6.0 + 6.0) * r + 0.5) == 0 && Trunc(-6.0 * r + 0.5) < 0
  {
    assert (-6.0 + 6.0) * r == 0.0;
    assert -6.0 * r + 0.5 <= -5.5;
  }
}
