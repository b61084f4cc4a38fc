/** Finding a shared intro in two acoustic fingerprints (handlers/analyzer.go). */
module IntroMatch {
  import opened Common

  const MIN_FRAMES := 180
  const MAX_GAP := 40

  function OnesCount32(x: bv32): nat
    decreases x
  {
    if x == 0 then 0 else (if x & 1 == 1 then 1 else 0) + OnesCount32(x >> 1)
  }

  /** A strong match: at most six bits differ. */
  predicate Similar(a: bv32, b: bv32) { OnesCount32(a ^ b) <= 6 }

  predicate Odd(x: bv32) { x & 1 == 1 }

  function Half(x: bv32): bv32 { x >> 1 }

  /** `x` without its lowest bit set. */
  function Lower(x: bv32): bv32 { x & (x - 1) }

  lemma LowerOdd(x: bv32)
    requires Odd(x)
    ensures !Odd(Lower(x)) && Half(Lower(x)) == Half(x)
  {
  }

  lemma LowerEven(x: bv32)
    requires x != 0 && !Odd(x)
    ensures Half(Lower(x)) == Lower(Half(x))
  {
  }

  lemma EvenStaysEven(x: bv32)
    requires !Odd(x)
    ensures !Odd(Lower(x)) && (x != 0 ==> Half(x) != 0)
  {
  }

  lemma CountStep(x: bv32)
    ensures OnesCount32(x) == (if Odd(x) then 1 else 0) + if x == 0 then 0 else OnesCount32(Half(x))
  {
  }

  lemma ZeroCount(x: bv32)
    requires x == 0
    ensures OnesCount32(x) == 0 && OnesCount32(Half(x)) == 0
  {
  }

  lemma HalfIsLess(x: bv32)
    requires x != 0
    ensures Half(x) < x
  {
  }

  /** Counting by clearing the lowest bit set: each time there is one fewer. */
  lemma {:induction false} ClearLowest(x: bv32)
    requires x != 0
    ensures OnesCount32(Lower(x)) + 1 == OnesCount32(x)
    decreases x
  {
    CountHalves(x);
    CountHalves(Lower(x));
    if Odd(x) {
      LowerOdd(x);
    } else {
      LowerEven(x);
      EvenStaysEven(x);
      HalfIsLess(x);
      ClearLowest(Half(x));
    }
  }

  lemma CountHalves(x: bv32)
    ensures OnesCount32(x) == (if Odd(x) then 1 else 0) + OnesCount32(Half(x))
  {
    CountStep(x);
    if x == 0 {
      ZeroCount(x);
    }
  }

  /** `x` with its lowest `n` bits set cleared. */
  function Cleared(x: bv32, n: nat): bv32 { if n == 0 || x == 0 then x else Cleared(Lower(x), n - 1) }

  lemma {:induction false} ClearedIff(x: bv32, n: nat)
    ensures Cleared(x, n) == 0 <==> OnesCount32(x) <= n
    decreases n
  {
    if x == 0 {
      ZeroCount(x);
    } else {
      ClearLowest(x);
      if n > 0 {
        ClearedIff(Lower(x), n - 1);
      }
    }
  }

  /** Two frames are a strong match exactly when clearing six bits of their difference leaves none. */
  lemma SimilarIff(a: bv32, b: bv32, six: nat)
    requires six == 6
    ensures Similar(a, b) <==> Cleared(a ^ b, six) == 0
  {
    ClearedIff(a ^ b, six);
  }

  // ---------------------------------------------------------------- blocks of matches

  /** One of the forty-one frames from `x` on matches. */
  ghost predicate MatchNear(ms: seq<bool>, x: int) {
    exists y :: x <= y <= x + MAX_GAP && 0 <= y < |ms| && ms[y]
  }

  /** [a, b] starts and ends on a match and has no run of more than forty mismatches. */
  ghost predicate Block(ms: seq<bool>, a: int, b: int) {
    && 0 <= a <= b < |ms| && ms[a] && ms[b]
    && forall x :: a <= x && x + MAX_GAP <= b ==> MatchNear(ms, x)
  }

  /** A block extends over a tolerable gap to the next match. */
  lemma BlockGrows(ms: seq<bool>, a: int, b: int, j: int)
    requires Block(ms, a, b) && b < j < |ms| && ms[j] && j - b - 1 <= MAX_GAP
    ensures Block(ms, a, j)
  {
    forall x | a <= x && x + MAX_GAP <= j ensures MatchNear(ms, x) {
      if x + MAX_GAP > b {
        var y := if x <= b then b else j;
        assert x <= y <= x + MAX_GAP && ms[y];
      }
    }
  }

  /** Two blocks that overlap are one. */
  lemma BlocksChain(ms: seq<bool>, i: int, e: int, a: int, b: int)
    requires Block(ms, i, e) && Block(ms, a, b) && i <= a <= e <= b
    ensures Block(ms, i, b)
  {
    forall x | i <= x && x + MAX_GAP <= b ensures MatchNear(ms, x) {
      if x + MAX_GAP > e && x < a {
        assert x <= a <= x + MAX_GAP && ms[a];
      }
    }
  }

  /** Past forty-one mismatches a block cannot reach. */
  lemma BlockStopsAtGap(ms: seq<bool>, i: int, e: int, stop: int, b: int)
    requires Block(ms, i, e) && e < stop <= |ms| && (forall y :: e < y < stop ==> !ms[y])
    requires stop == |ms| || stop - e - 1 > MAX_GAP
    requires Block(ms, i, b)
    ensures b <= e
  {
    if b > e && b >= stop {
      var near := MatchNear(ms, e + 1);
    }
  }

  /** The inner scan: the furthest end of a block starting at `i`. */
  method ExtendBlock(ms: seq<bool>, i: nat) returns (e: nat)
    requires i < |ms| && ms[i]
    ensures Block(ms, i, e) && forall b :: Block(ms, i, b) ==> b <= e
  {
    e := i;
    var j, mismatches := i, 0;
    while j < |ms| && mismatches <= MAX_GAP
      invariant i <= e && i <= j <= |ms| && Block(ms, i, e)
      invariant j == i || e < j
      invariant mismatches == if j == i then 0 else j - e - 1
      invariant 0 <= mismatches <= MAX_GAP + 1
      invariant forall y :: e < y < j ==> !ms[y]
    {
      if ms[j] {
        if j > e {
          BlockGrows(ms, i, e, j);
        }
        e, mismatches := j, 0;
      } else {
        mismatches := mismatches + 1;
      }
      j := j + 1;
    }
    forall b | Block(ms, i, b) ensures b <= e {
      BlockStopsAtGap(ms, i, e, j, b);
    }
  }

  /** The longest block of at least the minimum length, the first of them on ties. */
  ghost predicate Longest(ms: seq<bool>, s: int, e: int) {
    && Block(ms, s, e) && e - s >= MIN_FRAMES
    && forall a, b :: Block(ms, a, b) ==> b - a <= e - s && (b - a == e - s ==> s <= a)
  }

  /** Every block starting before `i` loses to (s, e), or is too short when there is none. */
  ghost predicate BestBefore(ms: seq<bool>, i: int, s: int, e: int, len: int) {
    && (len == 0 || (len >= MIN_FRAMES && Block(ms, s, e) && e - s == len && s < i))
    && forall a, b :: Block(ms, a, b) && a < i ==> (b - a < MIN_FRAMES || b - a <= len) && (len > 0 && b - a == len ==> s <= a)
  }

  lemma BlockBeatsInner(ms: seq<bool>, i: int, e: int, a: int, b: int)
    requires Block(ms, i, e) && (forall x :: Block(ms, i, x) ==> x <= e) && Block(ms, a, b) && i < a <= e
    ensures b - a < e - i
  {
    if b > e {
      BlocksChain(ms, i, e, a, b);
    }
  }

  lemma SkipMismatch(ms: seq<bool>, i: nat, s: int, e: int, len: int)
    requires BestBefore(ms, i, s, e, len) && i < |ms| && !ms[i]
    ensures BestBefore(ms, i + 1, s, e, len)
  {
  }

  lemma TakeBlock(ms: seq<bool>, i: nat, end: nat, s: int, e: int, len: int)
    requires BestBefore(ms, i, s, e, len) && Block(ms, i, end) && forall x :: Block(ms, i, x) ==> x <= end
    ensures if end - i > len && end - i >= MIN_FRAMES then BestBefore(ms, end + 1, i, end, end - i)
            else BestBefore(ms, end + 1, s, e, len)
  {
    forall a, b | Block(ms, a, b) && i < a <= end ensures b - a < end - i {
      BlockBeatsInner(ms, i, end, a, b);
    }
  }

  method DensestBlock(ms: seq<bool>) returns (s: int, e: int, len: int)
    ensures len == 0 || len >= MIN_FRAMES
    ensures len > 0 ==> Longest(ms, s, e) && len == e - s
    ensures len == 0 ==> forall a, b :: Block(ms, a, b) ==> b - a < MIN_FRAMES
  {
    s, e, len := -1, -1, 0;
    var i := 0;
    while i < |ms|
      invariant 0 <= i <= |ms| && BestBefore(ms, i, s, e, len)
    {
      if !ms[i] {
        SkipMismatch(ms, i, s, e, len);
        i := i + 1;
      } else {
        var end := ExtendBlock(ms, i);
        TakeBlock(ms, i, end, s, e, len);
        if end - i > len && end - i >= MIN_FRAMES {
          s, e, len := i, end, end - i;
        }
        i := end + 1;
      }
    }
  }

  // ---------------------------------------------------------------- the best alignment

  /** Where the overlap of the two fingerprints begins in each, and how long it is. */
  function Start1(offset: int): nat { if offset > 0 then offset else 0 }

  function Start2(offset: int): nat { if offset < 0 then -offset else 0 }

  function OverlapLen(n: nat, m: nat, offset: int): int { Min(n - Start1(offset), m - Start2(offset)) }

  /** The offsets the search tries. */
  predicate Tried(n: nat, m: nat, offset: int) { MIN_FRAMES - m <= offset <= n - MIN_FRAMES }

  /** Which frames of the overlap match. */
  function Matches(fp1: seq<bv32>, fp2: seq<bv32>, offset: int): (ms: seq<bool>) {
    var len := Max(OverlapLen(|fp1|, |fp2|, offset), 0);
    seq(len, i requires 0 <= i < len => Similar(fp1[Start1(offset) + i], fp2[Start2(offset) + i]))
  }

  function Count(ms: seq<bool>, k: nat): nat
    requires k <= |ms|
  {
    if k == 0 then 0 else Count(ms, k - 1) + if ms[k - 1] then 1 else 0
  }

  function Score(fp1: seq<bv32>, fp2: seq<bv32>, offset: int): nat {
    Count(Matches(fp1, fp2, offset), |Matches(fp1, fp2, offset)|)
  }

  method ScoreAt(fp1: seq<bv32>, fp2: seq<bv32>, offset: int) returns (score: nat)
    requires Tried(|fp1|, |fp2|, offset) && fp1 != [] && fp2 != []
    ensures score == Score(fp1, fp2, offset)
  {
    var start, start2 := Start1(offset), Start2(offset);
    var overlapLen := Min(|fp1| - start, |fp2| - start2);
    ghost var ms := Matches(fp1, fp2, offset);
    score := 0;
    for i := 0 to overlapLen
      invariant score == Count(ms, i)
    {
      if Similar(fp1[start + i], fp2[start2 + i]) {
        score := score + 1;
      }
    }
  }

  /** At an offset, exactly the pairs of frames that far apart are compared. */
  lemma PairIsCompared(fp1: seq<bv32>, fp2: seq<bv32>, a: nat, b: nat)
    requires a < |fp1| && b < |fp2|
    ensures var ms, i := Matches(fp1, fp2, a - b), a - Start1(a - b);
            0 <= i < |ms| && Start2(a - b) + i == b && (ms[i] <==> Similar(fp1[a], fp2[b]))
  {
  }

  lemma ComparedIsPair(fp1: seq<bv32>, fp2: seq<bv32>, offset: int, i: nat)
    requires i < |Matches(fp1, fp2, offset)|
    ensures Start1(offset) + i < |fp1| && Start2(offset) + i < |fp2| && Start1(offset) + i - (Start2(offset) + i) == offset
  {
  }

  /** An offset that is not tried leaves too few frames to compare, so the best tried is the best of all. */
  lemma UntriedIsTooShort(fp1: seq<bv32>, fp2: seq<bv32>, offset: int)
    requires !Tried(|fp1|, |fp2|, offset)
    ensures Score(fp1, fp2, offset) < MIN_FRAMES
  {
    var ms := Matches(fp1, fp2, offset);
    CountBound(ms, |ms|);
  }

  /** The first of the offsets tried with the most matching frames, and enough of them. */
  ghost predicate BestOffset(fp1: seq<bv32>, fp2: seq<bv32>, best: int, upTo: int) {
    && Tried(|fp1|, |fp2|, best) && Score(fp1, fp2, best) >= MIN_FRAMES
    && forall o :: Tried(|fp1|, |fp2|, o) && o < upTo ==>
         Score(fp1, fp2, o) <= Score(fp1, fp2, best) && (o < best ==> Score(fp1, fp2, o) < Score(fp1, fp2, best))
  }

  ghost predicate NoneEnough(fp1: seq<bv32>, fp2: seq<bv32>, upTo: int) {
    forall o :: Tried(|fp1|, |fp2|, o) && o < upTo ==> Score(fp1, fp2, o) < MIN_FRAMES
  }

  method FindOffset(fp1: seq<bv32>, fp2: seq<bv32>) returns (best: int, score: nat)
    requires fp1 != [] && fp2 != []
    ensures score > 0 ==> BestOffset(fp1, fp2, best, |fp1| + 1) && score == Score(fp1, fp2, best)
    ensures score == 0 ==> NoneEnough(fp1, fp2, |fp1| + 1)
  {
    best, score := 0, 0;
    var offset := MIN_FRAMES - |fp2|;
    while offset <= |fp1| - MIN_FRAMES
      invariant MIN_FRAMES - |fp2| <= offset
      invariant score > 0 ==> BestOffset(fp1, fp2, best, offset) && score == Score(fp1, fp2, best) && best < offset
      invariant score == 0 ==> NoneEnough(fp1, fp2, offset)
      decreases |fp1| - offset
    {
      var here := ScoreAt(fp1, fp2, offset);
      if here > score && here >= MIN_FRAMES {
        best, score := offset, here;
      }
      offset := offset + 1;
    }
  }

  /** 124 ms a frame: is a block of this many frames between half a minute and three? */
  predicate PlausibleLength(frames: int) { 30.0 <= frames as real * 0.124 <= 180.0 }

  /**
   [start, end] of the first fingerprint is the intro found at offset `at`: the longest block of matches,
   first on ties, at the first offset with the most matching frames, and of plausible length.
   */
  ghost predicate IsIntro(fp1: seq<bv32>, fp2: seq<bv32>, at: int, start: int, end: int) {
    && BestOffset(fp1, fp2, at, |fp1| + 1)
    && Longest(Matches(fp1, fp2, at), start - Start1(at), end - Start1(at))
    && PlausibleLength(end - start)
  }

  /** There is at most one intro. */
  lemma IntroIsUnique(fp1: seq<bv32>, fp2: seq<bv32>, at: int, s: int, e: int, at': int, s': int, e': int)
    requires IsIntro(fp1, fp2, at, s, e) && IsIntro(fp1, fp2, at', s', e')
    ensures at == at' && s == s' && e == e'
  {
    assert at == at';
    var ms, d := Matches(fp1, fp2, at), Start1(at);
    assert Block(ms, s - d, e - d) && Block(ms, s' - d, e' - d);
  }

  /** Fewer matches than frames: an empty fingerprint has no best offset. */
  lemma CountBound(ms: seq<bool>, k: nat)
    requires k <= |ms|
    ensures Count(ms, k) <= k
  {
  }

  /** The search answers exactly when there is an intro, and with that one. */
  method FindIntroMatch(fp1: seq<bv32>, fp2: seq<bv32>) returns (start: int, end: int, found: bool)
    ensures found ==> (exists at :: IsIntro(fp1, fp2, at, start, end)) && 0 <= start < end < |fp1|
    ensures !found ==> forall at, s, e :: !IsIntro(fp1, fp2, at, s, e)
  {
    start, end, found := 0, 0, false;
    if fp1 == [] || fp2 == [] {
      forall at | Tried(|fp1|, |fp2|, at) ensures Score(fp1, fp2, at) < MIN_FRAMES {
        CountBound(Matches(fp1, fp2, at), |Matches(fp1, fp2, at)|);
      }
      return;
    }
    var best, score := FindOffset(fp1, fp2);
    if score < MIN_FRAMES {
      return;
    }
    var ms := Matches(fp1, fp2, best);
    var s, e, len := DensestBlock(ms);
    if len >= MIN_FRAMES && PlausibleLength(len) {
      start, end, found := Start1(best) + s, Start1(best) + e, true;
      assert IsIntro(fp1, fp2, best, start, end);
    } else {
      OnlyBest(fp1, fp2, best, s, e, len);
    }
  }

  /** An implausible longest block at the best offset leaves no intro anywhere. */
  lemma OnlyBest(fp1: seq<bv32>, fp2: seq<bv32>, best: int, s: int, e: int, len: int)
    requires BestOffset(fp1, fp2, best, |fp1| + 1)
    requires len > 0 ==> Longest(Matches(fp1, fp2, best), s, e) && len == e - s && !PlausibleLength(len)
    requires len <= 0 ==> forall a, b :: Block(Matches(fp1, fp2, best), a, b) ==> b - a < MIN_FRAMES
    ensures forall at, s, e :: !IsIntro(fp1, fp2, at, s, e)
  {
  }
}
