/** The segment grid of one file and the playlist over it (handlers/hlsindex.go, handlers/hls.go). */
module SegLists {
  const SEGMENT := 6.0
  const SLACK := 0.001

  datatype SegList = SegList(starts: seq<real>, contentEnd: real, base: real, transcode: bool)

  function Extinf(s: SegList, i: int): real {
    if i < 0 || i >= |s.starts| then 0.0
    else
      var end := if i + 1 < |s.starts| then s.starts[i + 1] else s.contentEnd;
      if end - s.starts[i] < 0.0 then 0.0 else end - s.starts[i]
  }

  function SrcStart(s: SegList, i: int): real
    requires s.starts != []
  {
    if i <= 0 then s.base
    else if i >= |s.starts| then s.starts[|s.starts| - 1] + s.base
    else s.starts[i] + s.base
  }

  /** What every grid handed out satisfies. */
  ghost predicate ValidGrid(s: SegList) {
    && s.starts != [] && s.starts[0] == 0.0
    && (forall i, j :: 0 <= i < j < |s.starts| ==> s.starts[i] < s.starts[j])
    && s.starts[|s.starts| - 1] < s.contentEnd
  }

  /** Consecutive windows share their boundary; the last one ends where the content does. */
  lemma WindowsAbut(s: SegList, i: nat)
    requires ValidGrid(s) && i < |s.starts|
    ensures Extinf(s, i) > 0.0
    ensures SrcStart(s, i) + Extinf(s, i) == if i + 1 < |s.starts| then SrcStart(s, i + 1) else s.base + s.contentEnd
  {
  }

  function TotalBefore(s: SegList, n: nat): real {
    if n == 0 then 0.0 else TotalBefore(s, n - 1) + Extinf(s, n - 1)
  }

  lemma {:induction false} DurationsTile(s: SegList, n: nat)
    requires ValidGrid(s) && n <= |s.starts|
    ensures TotalBefore(s, n) == if n < |s.starts| then s.starts[n] else s.contentEnd
  {
    if n > 0 {
      DurationsTile(s, n - 1);
    }
  }

  /** The segments tile the content: their durations sum to its length. */
  lemma DurationsSum(s: SegList)
    requires ValidGrid(s)
    ensures TotalBefore(s, |s.starts|) == s.contentEnd
  {
    DurationsTile(s, |s.starts|);
  }

  // ---------------------------------------------------------------- keyframe-aligned grid

  /** Is keyframe time `kf` a full segment past the cut at `start`? */
  predicate Due(kf: real, start: real) { kf - start >= SEGMENT - SLACK }

  /** Indices, among the first `n` keyframes, of those that open a segment. */
  function Cuts(kfs: seq<real>, n: nat): (c: seq<nat>)
    requires 0 < n <= |kfs|
    ensures c != [] && c[0] == 0 && forall i :: 0 <= i < |c| ==> c[i] < n
  {
    if n == 1 then [0]
    else
      var c := Cuts(kfs, n - 1);
      if Due(kfs[n - 1], kfs[c[|c| - 1]]) then c + [n - 1] else c
  }

  lemma CutsStep(kfs: seq<real>, k: nat)
    requires 0 < k < |kfs|
    ensures var c := Cuts(kfs, k); Cuts(kfs, k + 1) == if Due(kfs[k], kfs[c[|c| - 1]]) then c + [k] else c
  {
  }

  /** After the last cut no keyframe is due. */
  lemma {:induction false} NoneDueAfterLast(kfs: seq<real>, n: nat, k: nat)
    requires 0 < n <= |kfs|
    requires var c := Cuts(kfs, n); c[|c| - 1] < k < n
    ensures var c := Cuts(kfs, n); !Due(kfs[k], kfs[c[|c| - 1]])
  {
    if n > 1 && k < n - 1 {
      NoneDueAfterLast(kfs, n - 1, k);
    }
  }

  /** Each cut is due, and it is the first keyframe in index order that is. */
  lemma {:induction false} NextCutIsFirstDue(kfs: seq<real>, n: nat, i: nat)
    requires 0 < n <= |kfs| && i + 1 < |Cuts(kfs, n)|
    ensures var c := Cuts(kfs, n);
            && c[i] < c[i + 1] && Due(kfs[c[i + 1]], kfs[c[i]])
            && forall k :: c[i] < k < c[i + 1] ==> !Due(kfs[k], kfs[c[i]])
  {
    var c, before := Cuts(kfs, n), Cuts(kfs, n - 1);
    if i + 1 < |before| {
      NextCutIsFirstDue(kfs, n - 1, i);
    } else {
      forall k | c[i] < k < c[i + 1] ensures !Due(kfs[k], kfs[c[i]]) {
        NoneDueAfterLast(kfs, n - 1, k);
      }
    }
  }

  /** The grid's boundaries are the cut keyframes, on the content clock. */
  ghost predicate CutAtKeyframes(s: SegList, kfs: seq<real>)
    requires kfs != []
  {
    s.starts == StartsOf(kfs, Cuts(kfs, |kfs|))
  }

  /** Cuts greedily, whatever the keyframe list, sorted or not. */
  method ComputeSegList(kfs: seq<real>, dur: real) returns (s: SegList)
    requires kfs != []
    ensures CutAtKeyframes(s, kfs) && s.base == kfs[0] && !s.transcode
    ensures var last := s.starts[|s.starts| - 1];
            s.contentEnd == if dur - kfs[0] <= last then last + SEGMENT else dur - kfs[0]
  {
    var base := kfs[0];
    var starts := CutStarts(kfs);
    var contentEnd := dur - base;
    if contentEnd <= starts[|starts| - 1] {
      contentEnd := starts[|starts| - 1] + SEGMENT;
    }
    s := SegList(starts, contentEnd, base, false);
  }

  /** Where the scan stands before keyframe `k`: the starts so far and the time of the last cut. */
  datatype Scan = Scan(starts: seq<real>, segStart: real)

  ghost predicate Scanned(kfs: seq<real>, k: nat, scan: Scan)
    requires 0 < k <= |kfs|
  {
    match scan
    case Scan(starts, segStart) =>
      var cuts := Cuts(kfs, k);
      segStart == kfs[cuts[|cuts| - 1]] && starts == StartsOf(kfs, cuts)
  }

  lemma ScanStarts(kfs: seq<real>)
    requires kfs != []
    ensures Scanned(kfs, 1, Scan([0.0], kfs[0]))
  {
  }

  lemma ScanStep(kfs: seq<real>, k: nat, scan: Scan)
    requires 0 < k < |kfs| && Scanned(kfs, k, scan)
    ensures Scanned(kfs, k + 1, if Due(kfs[k], scan.segStart) then Scan(scan.starts + [kfs[k] - kfs[0]], kfs[k]) else scan)
  {
    CutsStep(kfs, k);
    StartsOfMore(kfs, Cuts(kfs, k), k);
  }

  /** The scan over the keyframes. */
  method CutStarts(kfs: seq<real>) returns (starts: seq<real>)
    requires kfs != []
    ensures starts == StartsOf(kfs, Cuts(kfs, |kfs|))
  {
    var base, segStart := kfs[0], kfs[0];
    starts := [0.0];
    ScanStarts(kfs);
    for k := 1 to |kfs|
      invariant Scanned(kfs, k, Scan(starts, segStart))
    {
      ScanStep(kfs, k, Scan(starts, segStart));
      if kfs[k] - segStart >= SEGMENT - SLACK {
        starts, segStart := starts + [kfs[k] - base], kfs[k];
      }
    }
  }

  function StartsOf(kfs: seq<real>, cuts: seq<nat>): (r: seq<real>)
    requires kfs != [] && forall i :: 0 <= i < |cuts| ==> cuts[i] < |kfs|
    ensures |r| == |cuts| && forall i :: 0 <= i < |cuts| ==> r[i] == kfs[cuts[i]] - kfs[0]
  {
    seq(|cuts|, i requires 0 <= i < |cuts| => kfs[cuts[i]] - kfs[0])
  }

  lemma StartsOfMore(kfs: seq<real>, cuts: seq<nat>, k: nat)
    requires k < |kfs| && forall i :: 0 <= i < |cuts| ==> cuts[i] < |kfs|
    ensures StartsOf(kfs, cuts + [k]) == StartsOf(kfs, cuts) + [kfs[k] - kfs[0]]
  {
  }

  lemma {:induction false} StartsIncrease(s: SegList, kfs: seq<real>, i: nat, j: nat)
    requires kfs != [] && CutAtKeyframes(s, kfs) && i < j < |s.starts|
    ensures s.starts[j] - s.starts[i] >= SEGMENT - SLACK
    decreases j - i
  {
    NextCutIsFirstDue(kfs, |kfs|, i);
    if i + 1 < j {
      StartsIncrease(s, kfs, i + 1, j);
    }
  }

  /** The keyframe grid is a valid grid, and its interior segments are at least a segment long. */
  lemma CopyGridValid(s: SegList, kfs: seq<real>)
    requires kfs != [] && CutAtKeyframes(s, kfs) && s.contentEnd > s.starts[|s.starts| - 1]
    ensures ValidGrid(s)
    ensures forall i :: 0 <= i < |s.starts| - 1 ==> Extinf(s, i) >= 5.999
  {
    forall i, j | 0 <= i < j < |s.starts| ensures s.starts[j] - s.starts[i] >= SEGMENT - SLACK {
      StartsIncrease(s, kfs, i, j);
    }
  }

  /** Sorted keyframes at most `gap` apart: an interior segment overshoots by less than one gap. */
  lemma CopySegmentsBounded(s: SegList, kfs: seq<real>, gap: real, i: nat)
    requires kfs != [] && CutAtKeyframes(s, kfs) && i + 1 < |s.starts|
    requires forall k :: 0 < k < |kfs| ==> 0.0 <= kfs[k] - kfs[k - 1] <= gap
    ensures s.starts[i + 1] - s.starts[i] < 5.999 + gap
  {
    NextCutIsFirstDue(kfs, |kfs|, i);
    var a, b := Cuts(kfs, |kfs|)[i], Cuts(kfs, |kfs|)[i + 1];
    assert kfs[b] - kfs[b - 1] <= gap;
    assert a < b - 1 ==> !Due(kfs[b - 1], kfs[a]);
  }

  // ---------------------------------------------------------------- uniform grid

  method UniformSegList(dur: real, base: real) returns (s: SegList)
    ensures s.base == base && s.transcode && s.contentEnd == (if dur - base <= 0.0 then dur else dur - base)
    ensures s.starts != [] && forall i :: 0 <= i < |s.starts| ==> s.starts[i] == i as real * SEGMENT
    ensures |s.starts| as real * SEGMENT >= s.contentEnd - SLACK
    ensures |s.starts| == 1 || (|s.starts| - 1) as real * SEGMENT < s.contentEnd - SLACK
  {
    var contentEnd := dur - base;
    if contentEnd <= 0.0 {
      contentEnd := dur;
    }
    var starts: seq<real> := [];
    var t := 0.0;
    while t < contentEnd - SLACK
      invariant t == |starts| as real * SEGMENT
      invariant forall i :: 0 <= i < |starts| ==> starts[i] == i as real * SEGMENT
      invariant starts != [] ==> (|starts| - 1) as real * SEGMENT < contentEnd - SLACK
      decreases (contentEnd - t).Floor
    {
      starts := starts + [t];
      t := t + SEGMENT;
    }
    if starts == [] {
      starts := [0.0];
    }
    s := SegList(starts, contentEnd, base, true);
  }

  /** The uniform grid, when there is content, is a valid one of six-second segments, the last at most a millisecond over. */
  lemma UniformGridValid(s: SegList)
    requires s.starts != [] && (forall i :: 0 <= i < |s.starts| ==> s.starts[i] == i as real * SEGMENT)
    requires |s.starts| as real * SEGMENT >= s.contentEnd - SLACK
    requires |s.starts| == 1 || (|s.starts| - 1) as real * SEGMENT < s.contentEnd - SLACK
    ensures ValidGrid(s) <==> s.contentEnd > 0.0
    ensures forall i :: 0 <= i < |s.starts| ==> Extinf(s, i) <= 6.001
  {
    var n := |s.starts|;
    assert s.starts[n - 1] == (n - 1) as real * SEGMENT;
    assert n as real * SEGMENT == (n - 1) as real * SEGMENT + SEGMENT;
    forall i | 0 <= i < n ensures Extinf(s, i) <= SEGMENT + SLACK {
      if i + 1 < n {
        assert s.starts[i + 1] == (i + 1) as real * SEGMENT;
      }
    }
  }

  // ---------------------------------------------------------------- playlist

  function Ceil(x: real): int { -((-x).Floor) }

  /** Rounding to the nearest integer, as section 4.3.3.1 of RFC 8216 compares durations. */
  function Rounded(x: real): int { (x + 0.5).Floor }

  /** The advertised target duration: the least integer no segment exceeds. */
  method TargetDuration(s: SegList) returns (target: int)
    ensures forall i :: 0 <= i < |s.starts| ==> Extinf(s, i) <= target as real
    ensures target == 0 || exists i :: 0 <= i < |s.starts| && Extinf(s, i) > (target - 1) as real
  {
    var maxDur := 0.0;
    ghost var at := -1;
    for i := 0 to |s.starts|
      invariant forall j :: 0 <= j < i ==> Extinf(s, j) <= maxDur
      invariant (at == -1 && maxDur == 0.0) || (0 <= at < i && maxDur == Extinf(s, at))
    {
      var d := Extinf(s, i);
      if d > maxDur {
        maxDur, at := d, i;
      }
    }
    target := Ceil(maxDur);
    assert (target - 1) as real < maxDur <= target as real;
    assert at != -1 ==> Extinf(s, at) > (target - 1) as real;
  }

  /** Hence every advertised duration, rounded, is within the target, as the standard requires. */
  lemma RoundedWithinTarget(d: real, target: int)
    requires d <= target as real
    ensures Rounded(d) <= target
  {
  }
}
