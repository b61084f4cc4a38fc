/** Read classes and their fixed policies (storage/readclass.go). */
module ReadClasses {
  import opened Common

  datatype ReadClass = Playback | AheadDemux | ColdProbe | PatientDemux | MKVIndex | Other

  // Piece priorities, low to high, as the torrent client orders them.
  const PRIO_NONE := 0
  const PRIO_NORMAL := 1
  const PRIO_HIGH := 2
  const PRIO_NOW := 5

  const MIB := 1048576
  const PLAYBACK_READAHEAD := 64 * MIB
  const HEAD_FOOT_TAIL := 32 * MIB

  datatype Policy = Policy(curPrio: nat, aheadPrio: nat, aheadPieces: nat, aheadBytes: nat,
                           headFootBoost: bool, tailBoostBytes: nat)

  function PolicyOf(c: ReadClass): Policy {
    match c
    case Playback => Policy(PRIO_NOW, PRIO_HIGH, 0, PLAYBACK_READAHEAD, true, 0)
    case AheadDemux => Policy(PRIO_NORMAL, PRIO_NORMAL, 12, 0, true, 0)
    case ColdProbe => Policy(PRIO_NORMAL, PRIO_NONE, 0, 0, true, 0)
    case MKVIndex => Policy(PRIO_NORMAL, PRIO_NONE, 0, 0, true, HEAD_FOOT_TAIL)
    case PatientDemux => Policy(PRIO_NORMAL, PRIO_NORMAL, 8, 0, false, 0)
    case Other => Policy(PRIO_NORMAL, PRIO_NONE, 0, 0, true, 0)
  }

  function AheadPiecesFor(p: Policy, pieceLen: nat): nat {
    if p.aheadBytes > 0 && pieceLen > 0 then Max(p.aheadBytes / pieceLen, 1) else p.aheadPieces
  }
}

/**
 The pieces a reader keeps out of eviction (storage/reader.go, storage/cache.go) and how much RAM all
 streams together can pin (storage/storage.go).
 */
module Windows {
  import opened Common
  import opened ReadClasses

  datatype ReaderSt = ReaderSt(fileOffset: nat, fileSize: nat, pos: nat, cls: ReadClass, closed: bool)

  /** Piece length and count of one torrent. */
  datatype Shape = Shape(pieceLen: nat, pieceCount: nat)

  predicate ValidShape(sh: Shape) { sh.pieceLen > 0 }

  function CurrPiece(r: ReaderSt, pieceLen: nat): nat
    requires pieceLen > 0
  {
    (r.fileOffset + r.pos) / pieceLen
  }

  function Ahead(r: ReaderSt, pieceLen: nat): nat { Max(AheadPiecesFor(PolicyOf(r.cls), pieceLen), 2) }

  function ActiveWindow(r: ReaderSt, sh: Shape): (int, int)
    requires ValidShape(sh)
  {
    if r.closed then (0, 0)
    else (Max(CurrPiece(r, sh.pieceLen) - 2, 0),
          Min(CurrPiece(r, sh.pieceLen) + Ahead(r, sh.pieceLen), sh.pieceCount - 1))
  }

  function FileStartPiece(r: ReaderSt, pieceLen: nat): int
    requires pieceLen > 0
  {
    r.fileOffset / pieceLen
  }

  function FileEndPiece(r: ReaderSt, pieceLen: nat): int
    requires pieceLen > 0
  {
    GoDiv(r.fileOffset + r.fileSize - 1, pieceLen)
  }

  function Span(lo: int, hi: int): (s: set<int>)
    ensures forall i :: i in s <==> lo <= i <= hi
    decreases hi - lo
  {
    if lo > hi then {} else Span(lo, hi - 1) + {hi}
  }

  /** The foot scan starts two pieces before the last and stops at once if that is outside the file. */
  function Foot(fs: int, fe: int): set<int> { if fe - 2 >= fs then Span(fe - 2, fe) else {} }

  function Protects(r: ReaderSt, sh: Shape): set<int>
    requires ValidShape(sh)
  {
    Shield(ActiveWindow(r, sh), FileStartPiece(r, sh.pieceLen), FileEndPiece(r, sh.pieceLen))
  }

  /** The active window, the first three and the last three pieces of the file. */
  function Shield(w: (int, int), fs: int, fe: int): set<int> {
    Span(w.0, w.1) + Span(fs, Min(fs + 2, fe)) + Foot(fs, fe)
  }

  ghost function Protected(readers: map<nat, ReaderSt>, sh: Shape): set<int>
    requires ValidShape(sh)
  {
    set r, i | r in readers && i in Protects(readers[r], sh) :: i
  }

  // ---------------------------------------------------------------- what that is in bytes

  /** Byte `b` of the torrent lies in piece `idx`. */
  predicate InPiece(b: int, idx: int, pieceLen: nat) { idx * pieceLen <= b < (idx + 1) * pieceLen }

  /** A reader of this class looks `k` pieces ahead: 64 MiB for a player, a fixed count for a demuxer, two at least. */
  predicate LooksAhead(cls: ReadClass, pieceLen: nat, k: int) {
    k <= 2 || (cls.Playback? && k * pieceLen <= 67108864) || (cls.AheadDemux? && k <= 12) || (cls.PatientDemux? && k <= 8)
  }

  /** The reader's position is in piece `cur`, and its file's first and last bytes in pieces `first` and `last`. */
  predicate StandsIn(r: ReaderSt, pieceLen: nat, cur: int, first: int, last: int) {
    && InPiece(r.fileOffset + r.pos, cur, pieceLen)
    && InPiece(r.fileOffset, first, pieceLen) && InPiece(r.fileOffset + r.fileSize - 1, last, pieceLen)
  }

  /** From two pieces behind the position to as far ahead as the class looks, and three pieces at each end of the file. */
  predicate Needs(r: ReaderSt, sh: Shape, cur: int, first: int, last: int, i: int) {
    || (0 <= i < sh.pieceCount && cur - 2 <= i && LooksAhead(r.cls, sh.pieceLen, i - cur))
    || (first <= i <= last && (i <= first + 2 || last - 2 <= i))
  }

  lemma QuotientIsPiece(b: nat, pieceLen: nat, idx: int)
    requires pieceLen > 0
    ensures InPiece(b, idx, pieceLen) <==> idx == b / pieceLen
  {
    QuotientBound(b, pieceLen);
    var q := b / pieceLen;
    if idx < q {
      assert (idx + 1) * pieceLen <= q * pieceLen by { ScaleMono(idx + 1, q, pieceLen); }
    } else if idx > q {
      assert (q + 1) * pieceLen <= idx * pieceLen by { ScaleMono(q + 1, idx, pieceLen); }
    }
  }

  lemma ScaleMono(a: int, b: int, k: nat)
    requires a <= b
    ensures a * k <= b * k
  {
  }

  lemma QuotientAtLeast(x: nat, y: nat, k: nat)
    requires y > 0
    ensures k <= x / y <==> k * y <= x
  {
    QuotientBound(x, y);
    if k <= x / y {
      MulMono(k, x / y, y);
    } else {
      MulMono(x / y + 1, k, y);
    }
  }

  lemma AheadIs(r: ReaderSt, pieceLen: nat, k: nat)
    requires pieceLen > 0
    ensures k <= Ahead(r, pieceLen) <==> LooksAhead(r.cls, pieceLen, k)
  {
    QuotientAtLeast(PLAYBACK_READAHEAD, pieceLen, k);
  }

  lemma StandsWhere(r: ReaderSt, pieceLen: nat, cur: int, first: int, last: int)
    requires pieceLen > 0 && r.fileSize > 0 && StandsIn(r, pieceLen, cur, first, last)
    ensures CurrPiece(r, pieceLen) == cur && FileStartPiece(r, pieceLen) == first && FileEndPiece(r, pieceLen) == last
    ensures 0 <= cur && 0 <= first <= last
  {
    QuotientIsPiece(r.fileOffset + r.pos, pieceLen, cur);
    QuotientIsPiece(r.fileOffset, pieceLen, first);
    QuotientIsPiece(r.fileOffset + r.fileSize - 1, pieceLen, last);
    EndsInOrder(r.fileOffset, r.fileOffset + r.fileSize - 1, pieceLen, first, last);
  }

  lemma EndsInOrder(from: int, to: int, pieceLen: nat, first: int, last: int)
    requires 0 <= from <= to && pieceLen > 0 && InPiece(from, first, pieceLen) && InPiece(to, last, pieceLen)
    ensures first <= last
  {
    if last < first {
      ScaleMono(last + 1, first, pieceLen);
    }
  }

  /** Exactly which pieces an open reader keeps out of eviction, in bytes of the torrent. */
  lemma ProtectsIff(r: ReaderSt, sh: Shape, cur: int, first: int, last: int, i: int)
    requires ValidShape(sh) && !r.closed && r.fileSize > 0 && StandsIn(r, sh.pieceLen, cur, first, last)
    ensures i in Protects(r, sh) <==> Needs(r, sh, cur, first, last, i)
  {
    StandsWhere(r, sh.pieceLen, cur, first, last);
    InShield(ActiveWindow(r, sh), first, last, i);
    if i > cur {
      AheadIs(r, sh.pieceLen, i - cur);
    }
  }

  /** A closed reader that is still registered keeps piece zero and the ends of its file. */
  lemma ClosedProtectsIff(r: ReaderSt, sh: Shape, first: int, last: int, i: int)
    requires ValidShape(sh) && r.closed && r.fileSize > 0
    requires InPiece(r.fileOffset, first, sh.pieceLen) && InPiece(r.fileOffset + r.fileSize - 1, last, sh.pieceLen)
    ensures i in Protects(r, sh) <==> i == 0 || (first <= i <= last && (i <= first + 2 || last - 2 <= i))
  {
    var cur := (r.fileOffset + r.pos) / sh.pieceLen;
    QuotientIsPiece(r.fileOffset + r.pos, sh.pieceLen, cur);
    StandsWhere(r, sh.pieceLen, cur, first, last);
    InShield(ActiveWindow(r, sh), first, last, i);
  }

  /** Whatever an open reader needs is among the protected pieces. */
  ghost predicate GuardsNeeds(protected: set<int>, readers: map<nat, ReaderSt>, sh: Shape) {
    forall r: nat, cur: int, first: int, last: int, i: int ::
      r in readers && !readers[r].closed && readers[r].fileSize > 0
      && StandsIn(readers[r], sh.pieceLen, cur, first, last) && Needs(readers[r], sh, cur, first, last, i)
      ==> i in protected
  }

  lemma NeedsAreGuarded(readers: map<nat, ReaderSt>, sh: Shape)
    requires ValidShape(sh)
    ensures GuardsNeeds(Protected(readers, sh), readers, sh)
  {
    forall r: nat, cur: int, first: int, last: int, i: int |
      r in readers && !readers[r].closed && readers[r].fileSize > 0
      && StandsIn(readers[r], sh.pieceLen, cur, first, last) && Needs(readers[r], sh, cur, first, last, i)
      ensures i in Protected(readers, sh)
    {
      ProtectsIff(readers[r], sh, cur, first, last, i);
    }
  }

  lemma InShield(w: (int, int), fs: int, fe: int, i: int)
    requires fs <= fe
    ensures i in Shield(w, fs, fe) <==> w.0 <= i <= w.1 || (fs <= i <= fe && (i <= fs + 2 || fe - 2 <= i))
  {
  }

  lemma {:induction false} SpanSize(lo: int, hi: int)
    ensures |Span(lo, hi)| == Max(hi - lo + 1, 0)
    decreases hi - lo
  {
    if lo <= hi {
      SpanSize(lo, hi - 1);
    }
  }

  lemma UnionSize<T>(a: set<T>, b: set<T>)
    ensures |a + b| <= |a| + |b|
    ensures a !! b ==> |a + b| == |a| + |b|
  {
    assert a + b == a + (b - a);
    assert |a + b| == |a| + |b - a|;
    assert |b| == |b - a| + |b * a| by { assert b == (b - a) + (b * a); }
  }

  lemma ThreeSpansAtMost(start: int, end: int, fs: int, fe: int)
    ensures |Shield((start, end), fs, fe)| <= Max(end - start + 1, 0) + 6
  {
    SpanSize(start, end);
    SpanSize(fs, Min(fs + 2, fe));
    SpanSize(fe - 2, fe);
    UnionSize(Span(start, end), Span(fs, Min(fs + 2, fe)));
    UnionSize(Span(start, end) + Span(fs, Min(fs + 2, fe)), Foot(fs, fe));
  }

  lemma DisjointSize<T>(s: set<T>, a: set<T>, b: set<T>, c: set<T>)
    requires s == a + b + c && (forall x :: x in a ==> x !in b && x !in c) && (forall x :: x in b ==> x !in c)
    ensures |s| == |a| + |b| + |c|
  {
    UnionSize(a, b);
    UnionSize(a + b, c);
  }

  ghost predicate Fills(s: set<int>, lo: int, hi: int) { forall i :: i in s <==> lo <= i <= hi }

  lemma FilledSize(s: set<int>, lo: int, hi: int)
    requires Fills(s, lo, hi)
    ensures |s| == Max(hi - lo + 1, 0)
  {
    assert s == Span(lo, hi);
    SpanSize(lo, hi);
  }

  /** Three ranges apart from each other. */
  lemma ThreeRangesExactly(s: set<int>, a: set<int>, b: set<int>, c: set<int>, start: int, end: int, fs: int, fe: int)
    requires fs + 2 < start <= end < fe - 2
    requires Fills(a, start, end) && Fills(b, fs, fs + 2) && Fills(c, fe - 2, fe) && s == a + b + c
    ensures |s| == end - start + 1 + 6
  {
    FilledSize(a, start, end);
    FilledSize(b, fs, fs + 2);
    FilledSize(c, fe - 2, fe);
    forall x | x in a ensures x !in b && x !in c {
    }
    forall x | x in b ensures x !in c {
      assert x <= fs + 2;
    }
    DisjointSize(s, a, b, c);
  }

  lemma ThreeSpansExactly(start: int, end: int, fs: int, fe: int)
    requires fs + 2 < start <= end < fe - 2
    ensures |Shield((start, end), fs, fe)| == end - start + 1 + 6
  {
    ThreeRangesExactly(Shield((start, end), fs, fe), Span(start, end), Span(fs, fs + 2), Span(fe - 2, fe), start, end, fs, fe);
  }

  /** One reader protects its read-ahead plus at most nine pieces. */
  lemma ProtectsAtMost(r: ReaderSt, sh: Shape)
    requires ValidShape(sh)
    ensures |Protects(r, sh)| <= Ahead(r, sh.pieceLen) + 9
  {
    var (start, end) := ActiveWindow(r, sh);
    ThreeSpansAtMost(start, end, FileStartPiece(r, sh.pieceLen), FileEndPiece(r, sh.pieceLen));
  }

  lemma WindowInside(r: ReaderSt, sh: Shape, c: nat)
    requires ValidShape(sh) && !r.closed && c == CurrPiece(r, sh.pieceLen)
    requires 2 <= c && c + Ahead(r, sh.pieceLen) < sh.pieceCount
    ensures ActiveWindow(r, sh) == (c - 2, c + Ahead(r, sh.pieceLen))
  {
  }

  /** The bound is attained when the window lies well inside the file. */
  lemma ProtectsExactly(r: ReaderSt, sh: Shape, w: (int, int), fs: int, fe: int)
    requires ValidShape(sh) && w == ActiveWindow(r, sh)
    requires fs == FileStartPiece(r, sh.pieceLen) && fe == FileEndPiece(r, sh.pieceLen)
    requires fs + 2 < w.0 <= w.1 < fe - 2
    ensures |Protects(r, sh)| == w.1 - w.0 + 7
  {
    ThreeSpansExactly(w.0, w.1, fs, fe);
  }

  function PinnedBy(r: ReaderSt, sh: Shape): int
    requires ValidShape(sh)
  {
    |Protects(r, sh)| * sh.pieceLen
  }

  /** For pieces up to 32 MiB, a player pins at most its 64 MiB budget and nine pieces. */
  lemma PlayerPinsAtMost(r: ReaderSt, sh: Shape)
    requires ValidShape(sh) && r.cls.Playback? && sh.pieceLen <= 32 * MIB
    ensures PinnedBy(r, sh) <= PLAYBACK_READAHEAD + 9 * sh.pieceLen
  {
    ProtectsAtMost(r, sh);
    BudgetArithmetic(|Protects(r, sh)|, sh.pieceLen);
  }

  lemma BudgetArithmetic(count: nat, pieceLen: nat)
    requires 0 < pieceLen <= 32 * MIB && count <= Max(Max(PLAYBACK_READAHEAD / pieceLen, 1), 2) + 9
    ensures count * pieceLen <= PLAYBACK_READAHEAD + 9 * pieceLen
  {
    var n := PLAYBACK_READAHEAD / pieceLen;
    QuotientBound(PLAYBACK_READAHEAD, pieceLen);
    if n < 2 {
      MulMono(n + 1, 2, pieceLen);
    }
    assert n >= 2;
    MulMono(count, n + 9, pieceLen);
    assert (n + 9) * pieceLen == n * pieceLen + 9 * pieceLen;
  }

  lemma QuotientBound(x: nat, y: nat)
    requires y > 0
    ensures x / y * y <= x < (x / y + 1) * y
  {
    assert x == x / y * y + x % y;
  }

  const PER_STREAM := PLAYBACK_READAHEAD + 16 * MIB

  /** The capacity in force after clamping a requested budget. */
  function Clamped(bytes: int): int { Max(bytes, PER_STREAM) }

  function DerivedMaxStreams(capacity: int): int { Max(GoDiv(capacity, PER_STREAM), 1) }

  /** The capacity is what was asked for, or one stream's share if that is more. */
  lemma ClampedIs(bytes: int)
    ensures Clamped(bytes) == if bytes >= 83886080 then bytes else 83886080
  {
  }

  /** The number of streams is the most whose shares of 80 MiB fit the capacity, and one at least. */
  lemma DerivedIsMost(capacity: int, n: nat)
    requires capacity >= 0 && n > 0
    ensures n <= DerivedMaxStreams(capacity) <==> n == 1 || n * 83886080 <= capacity
  {
    QuotientAtLeast(capacity, PER_STREAM, n);
  }

  datatype Stream = Stream(r: ReaderSt, sh: Shape)

  function Sum(s: seq<int>): int { if s == [] then 0 else s[0] + Sum(s[1..]) }

  lemma {:induction false} SumAtMost(s: seq<int>, bound: int)
    requires forall k :: 0 <= k < |s| ==> s[k] <= bound
    ensures Sum(s) <= |s| * bound
    decreases |s|
  {
    if s != [] {
      SumAtMost(s[1..], bound);
      assert (|s| - 1) * bound + bound == |s| * bound;
    }
  }

  /** `pins` lists what each stream keeps out of eviction. */
  ghost predicate Pins(streams: seq<Stream>, pins: seq<int>) {
    |pins| == |streams| &&
    forall k :: 0 <= k < |streams| ==> ValidShape(streams[k].sh) && pins[k] == PinnedBy(streams[k].r, streams[k].sh)
  }

  /** The most a player can pin with pieces of this length. */
  function Share(pieceLen: nat): nat { (Max(AheadPiecesFor(PolicyOf(Playback), pieceLen), 2) + 9) * pieceLen }

  /** A player whose pieces are short enough for its share of the budget. */
  predicate ModestPlayer(s: Stream) { s.r.cls.Playback? && Share(s.sh.pieceLen) <= PER_STREAM }

  /** Nine pieces in 16 MiB are short enough. */
  lemma ShortPiecesAreModest(pieceLen: nat)
    requires 0 < pieceLen && 9 * pieceLen <= 16 * MIB
    ensures Share(pieceLen) <= PER_STREAM
  {
    BudgetArithmetic(Max(AheadPiecesFor(PolicyOf(Playback), pieceLen), 2) + 9, pieceLen);
  }

  lemma PlayerPinsShare(r: ReaderSt, sh: Shape)
    requires ValidShape(sh) && r.cls.Playback?
    ensures PinnedBy(r, sh) <= Share(sh.pieceLen)
  {
    ProtectsAtMost(r, sh);
    MulMono(|Protects(r, sh)|, Max(AheadPiecesFor(PolicyOf(Playback), sh.pieceLen), 2) + 9, sh.pieceLen);
  }

  /** As many players as the budget admits can never pin more than the budget. */
  lemma AdmittedStreamsFit(requested: int, streams: seq<Stream>, pins: seq<int>)
    requires |streams| <= DerivedMaxStreams(Clamped(requested)) && Pins(streams, pins)
    requires forall k :: 0 <= k < |streams| ==> ModestPlayer(streams[k])
    ensures Sum(pins) <= Clamped(requested)
  {
    forall k | 0 <= k < |pins| ensures pins[k] <= PER_STREAM {
      PlayerPinsShare(streams[k].r, streams[k].sh);
    }
    SumAtMost(pins, PER_STREAM);
    QuotientBound(Clamped(requested), PER_STREAM);
    MulMono(|streams|, DerivedMaxStreams(Clamped(requested)), PER_STREAM);
  }

  /** A player five pieces into a file that runs well past its window. */
  function FullPlayer(pieceLen: nat, ahead: nat): Stream {
    Stream(ReaderSt(0, (ahead + 15) * pieceLen, 5 * pieceLen, Playback, false), Shape(pieceLen, ahead + 15))
  }

  lemma QuotientIs(x: nat, y: nat, q: nat, r: nat)
    requires r < y && x == q * y + r
    ensures x / y == q
  {
    QuotientBound(x, y);
    if x / y < q {
      MulMono(x / y + 1, q, y);
    } else if x / y > q {
      MulMono(q + 1, x / y, y);
    }
  }

  /** It pins its whole share. */
  lemma FullPlayerPins(s: Stream, pieceLen: nat, ahead: nat)
    requires pieceLen > 0 && ahead == Max(AheadPiecesFor(PolicyOf(Playback), pieceLen), 2) && s == FullPlayer(pieceLen, ahead)
    ensures ValidShape(s.sh) && PinnedBy(s.r, s.sh) == Share(pieceLen)
  {
    QuotientIs(5 * pieceLen, pieceLen, 5, 0);
    QuotientIs((ahead + 15) * pieceLen - 1, pieceLen, ahead + 14, pieceLen - 1);
    QuotientIs(0, pieceLen, 0, 0);
    assert CurrPiece(s.r, pieceLen) == 5;
    WindowInside(s.r, s.sh, 5);
    ProtectsExactly(s.r, s.sh, (3, 5 + ahead), 0, ahead + 14);
  }

  ghost predicate BudgetHolds(pieceLen: nat, requested: int, streams: seq<Stream>, pins: seq<int>) {
    && |streams| <= DerivedMaxStreams(Clamped(requested)) && Pins(streams, pins)
    && (forall k :: 0 <= k < |streams| ==> streams[k].r.cls.Playback? && streams[k].sh.pieceLen == pieceLen)
    ==> Sum(pins) <= Clamped(requested)
  }

  /** For which piece lengths the derived number of streams keeps within every budget, whatever they play. */
  lemma AdmittedStreamsFitIff(pieceLen: nat)
    requires pieceLen > 0
    ensures (forall requested: int, streams: seq<Stream>, pins: seq<int> :: BudgetHolds(pieceLen, requested, streams, pins))
            <==> Share(pieceLen) <= PER_STREAM
  {
    if Share(pieceLen) <= PER_STREAM {
      forall requested: int, streams: seq<Stream>, pins: seq<int> ensures BudgetHolds(pieceLen, requested, streams, pins) {
        if |streams| <= DerivedMaxStreams(Clamped(requested)) && Pins(streams, pins)
           && forall k :: 0 <= k < |streams| ==> streams[k].r.cls.Playback? && streams[k].sh.pieceLen == pieceLen {
          AdmittedStreamsFit(requested, streams, pins);
        }
      }
    } else {
      var ahead := Max(AheadPiecesFor(PolicyOf(Playback), pieceLen), 2);
      var s := FullPlayer(pieceLen, ahead);
      FullPlayerPins(s, pieceLen, ahead);
      OneStreamOverflows(pieceLen, s);
    }
  }

  lemma OneStreamOverflows(pieceLen: nat, s: Stream)
    requires ValidShape(s.sh) && s.r.cls.Playback? && s.sh.pieceLen == pieceLen && PinnedBy(s.r, s.sh) > PER_STREAM
    ensures !BudgetHolds(pieceLen, PER_STREAM, [s], [PinnedBy(s.r, s.sh)])
  {
    var pins := [PinnedBy(s.r, s.sh)];
    assert pins[1..] == [];
    assert Sum(pins) == pins[0];
  }

  /** A player in the middle of a thousand-piece file of 4 MiB pieces. */
  function MidFilePlayer(): Stream {
    Stream(ReaderSt(0, 4194304000, 1677721600, Playback, false), Shape(4194304, 1000))
  }

  lemma MidFileWindow(s: Stream)
    requires s == MidFilePlayer()
    ensures ValidShape(s.sh) && PinnedBy(s.r, s.sh) == 25 * s.sh.pieceLen
  {
    var w, fs, fe := ActiveWindow(s.r, s.sh), FileStartPiece(s.r, s.sh.pieceLen), FileEndPiece(s.r, s.sh.pieceLen);
    assert w.0 == 398 && w.1 == 416 && fs == 0 && fe == 999;
    ProtectsExactly(s.r, s.sh, w, fs, fe);
  }

  /** With larger pieces the derived limit is unsound: this one player pins 100 MiB of an 80 MiB budget. */
  lemma LargePiecesOverflow(s: Stream)
    requires s == MidFilePlayer()
    ensures ValidShape(s.sh) && PinnedBy(s.r, s.sh) == 25 * s.sh.pieceLen == 100 * MIB
    ensures Clamped(0) == 80 * MIB && DerivedMaxStreams(Clamped(0)) == 1
  {
    MidFileWindow(s);
  }
}

/** Priorities handed to the torrent client: a max-merge over open readers (storage/cache.go). */
module Priorities {
  import opened Common
  import opened ReadClasses
  import opened Windows

  function TailPieces(p: Policy, pieceLen: nat): nat {
    if p.tailBoostBytes > 0 && pieceLen > 0 then Max(p.tailBoostBytes / pieceLen, 2) else 2
  }

  /** What one reader wants for piece `idx` of the file spanning pieces [fs, fe]. */
  function Claim(r: ReaderSt, pieceLen: nat, fs: int, fe: int, idx: int): nat
    requires pieceLen > 0
  {
    var pol, cur := PolicyOf(r.cls), CurrPiece(r, pieceLen);
    if r.closed || !(fs <= idx <= fe) then PRIO_NONE
    else if idx == cur then Max(pol.curPrio, Boost(pol, pieceLen, fs, fe, idx))
    else if cur < idx <= cur + AheadPiecesFor(pol, pieceLen) then Max(pol.aheadPrio, Boost(pol, pieceLen, fs, fe, idx))
    else Boost(pol, pieceLen, fs, fe, idx)
  }

  function Boost(pol: Policy, pieceLen: nat, fs: int, fe: int, idx: int): nat {
    if pol.headFootBoost && (idx < fs + 2 || idx > fe - TailPieces(pol, pieceLen)) then PRIO_HIGH else PRIO_NONE
  }

  /** `p` is the greatest claim any of the readers makes on `idx`, or none if nobody claims it. */
  ghost predicate IsMerge(p: nat, readers: map<nat, ReaderSt>, pieceLen: nat, fs: int, fe: int, idx: int)
    requires pieceLen > 0
  {
    && (forall r :: r in readers ==> Claim(readers[r], pieceLen, fs, fe, idx) <= p)
    && (p == PRIO_NONE || exists r :: r in readers && Claim(readers[r], pieceLen, fs, fe, idx) == p)
  }

  function At(desired: map<int, nat>, idx: int): nat { if idx in desired then desired[idx] else PRIO_NONE }

  /** Raises every file piece in [lo, hi] to at least `prio`. */
  method RaiseRange(desired: map<int, nat>, lo: int, hi: int, fs: int, fe: int, prio: nat) returns (d: map<int, nat>)
    ensures forall x :: At(d, x) == if lo <= x <= hi && fs <= x <= fe then Max(At(desired, x), prio) else At(desired, x)
  {
    d := desired;
    var idx := lo;
    while idx <= hi
      invariant lo <= idx
      invariant idx <= hi + 1 || idx == lo
      invariant forall x ::
        At(d, x) == if lo <= x < idx && x <= hi && fs <= x <= fe then Max(At(desired, x), prio) else At(desired, x)
    {
      if fs <= idx <= fe && At(d, idx) < prio {
        d := d[idx := prio];
      }
      idx := idx + 1;
    }
  }

  method RaiseForReader(desired: map<int, nat>, r: ReaderSt, pieceLen: nat, fs: int, fe: int) returns (d: map<int, nat>)
    requires pieceLen > 0
    ensures forall x :: At(d, x) == Max(At(desired, x), Claim(r, pieceLen, fs, fe, x))
  {
    d := desired;
    if r.closed {
      return;
    }
    var pol, cur := PolicyOf(r.cls), CurrPiece(r, pieceLen);
    d := RaiseRange(d, cur, cur, fs, fe, pol.curPrio);
    d := RaiseRange(d, cur + 1, cur + AheadPiecesFor(pol, pieceLen), fs, fe, pol.aheadPrio);
    if pol.headFootBoost {
      d := RaiseRange(d, fs, fs + 1, fs, fe, PRIO_HIGH);
      d := RaiseRange(d, fe - TailPieces(pol, pieceLen) + 1, fe, fs, fe, PRIO_HIGH);
    }
  }

  /**
   Visits the readers in any order and returns the priority set on every piece of the file: the
   greatest claim of any open reader.
   */
  method UpdatePriorities(readers: map<nat, ReaderSt>, sh: Shape, fs: int, fe: int) returns (set_: map<int, nat>)
    requires ValidShape(sh)
    ensures set_.Keys == Span(fs, Min(fe, sh.pieceCount - 1))
    ensures forall i :: i in set_ ==> IsMerge(set_[i], readers, sh.pieceLen, fs, fe, i)
    ensures Serves(set_, readers, sh.pieceLen, fs, fe) && Spares(set_, readers, sh.pieceLen, fs, fe)
  {
    var desired: map<int, nat>, todo := map[], readers.Keys;
    ghost var seen: map<nat, ReaderSt> := map[];
    while todo != {}
      invariant todo <= readers.Keys
      invariant seen == map r | r in readers && r !in todo :: readers[r]
      invariant forall x :: IsMerge(At(desired, x), seen, sh.pieceLen, fs, fe, x)
    {
      var r := Pick(todo);
      ghost var before, d0 := seen, desired;
      desired := RaiseForReader(desired, readers[r], sh.pieceLen, fs, fe);
      todo := todo - {r};
      seen := seen[r := readers[r]];
      forall x ensures IsMerge(At(desired, x), seen, sh.pieceLen, fs, fe, x) {
        MergeOneMore(At(d0, x), before, r, readers[r], sh.pieceLen, fs, fe, x);
      }
    }
    assert seen == readers;
    set_ := map[];
    var idx := fs;
    while idx <= fe && idx < sh.pieceCount
      invariant fs <= idx
      invariant idx == fs || (idx <= fe + 1 && idx <= sh.pieceCount)
      invariant set_.Keys == Span(fs, idx - 1)
      invariant forall i :: i in set_ ==> set_[i] == At(desired, i)
    {
      set_ := set_[idx := At(desired, idx)];
      idx := idx + 1;
    }
    MergedServes(set_, readers, sh.pieceLen, fs, fe);
    MergedSpares(set_, readers, sh.pieceLen, fs, fe);
  }

  lemma MergeOneMore(p: nat, readers: map<nat, ReaderSt>, r: nat, st: ReaderSt, pieceLen: nat, fs: int, fe: int, idx: int)
    requires pieceLen > 0 && r !in readers && IsMerge(p, readers, pieceLen, fs, fe, idx)
    ensures IsMerge(Max(p, Claim(st, pieceLen, fs, fe, idx)), readers[r := st], pieceLen, fs, fe, idx)
  {
    var all := readers[r := st];
    assert all[r] == st;
    if p >= Claim(st, pieceLen, fs, fe, idx) && p != PRIO_NONE {
      var q :| q in readers && Claim(readers[q], pieceLen, fs, fe, idx) == p;
      assert all[q] == readers[q];
    }
  }

  /** A newly opened reader can only raise a piece. */
  lemma AddingReaderNeverLowers(p: nat, p': nat, readers: map<nat, ReaderSt>, r: nat, st: ReaderSt, pieceLen: nat, fs: int, fe: int, idx: int)
    requires pieceLen > 0 && r !in readers
    requires IsMerge(p, readers, pieceLen, fs, fe, idx) && IsMerge(p', readers[r := st], pieceLen, fs, fe, idx)
    ensures p <= p'
  {
    if p != PRIO_NONE {
      var q :| q in readers && Claim(readers[q], pieceLen, fs, fe, idx) == p;
      assert readers[r := st][q] == readers[q];
    }
  }

  /** The reader is in piece `cur` of the torrent, in bytes. */
  predicate ReadsIn(r: ReaderSt, pieceLen: nat, cur: int) { !r.closed && InPiece(r.fileOffset + r.pos, cur, pieceLen) }

  /** What a class asks for where it reads, ahead of that, and near the ends of the file [fs, fe]. */
  function Wants(cls: ReadClass, pieceLen: nat, fs: int, fe: int, cur: int, idx: int): nat {
    var ends := cls != PatientDemux && (idx <= fs + 1 || fe - 1 <= idx || (cls.MKVIndex? && (fe + 1 - idx) * pieceLen <= 33554432));
    if idx == cur && cls.Playback? then PRIO_NOW
    else if ends then PRIO_HIGH
    else if idx == cur then PRIO_NORMAL
    else if idx > cur && cls.Playback? && (idx == cur + 1 || (idx - cur) * pieceLen <= 67108864) then PRIO_HIGH
    else if cur < idx <= cur + 12 && cls.AheadDemux? then PRIO_NORMAL
    else if cur < idx <= cur + 8 && cls.PatientDemux? then PRIO_NORMAL
    else PRIO_NONE
  }

  lemma TailIs(pieceLen: nat, k: nat)
    requires pieceLen > 0
    ensures k <= Max(HEAD_FOOT_TAIL / pieceLen, 2) <==> k <= 2 || k * pieceLen <= 33554432
  {
    QuotientAtLeast(HEAD_FOOT_TAIL, pieceLen, k);
  }

  /** Exactly what one open reader asks for a piece of the file. */
  lemma ClaimIs(r: ReaderSt, pieceLen: nat, fs: int, fe: int, cur: int, idx: int)
    requires pieceLen > 0 && ReadsIn(r, pieceLen, cur) && fs <= idx <= fe
    ensures Claim(r, pieceLen, fs, fe, idx) == Wants(r.cls, pieceLen, fs, fe, cur, idx)
  {
    QuotientIsPiece(r.fileOffset + r.pos, pieceLen, cur);
    TailIs(pieceLen, fe + 1 - idx);
    if idx > cur {
      QuotientAtLeast(PLAYBACK_READAHEAD, pieceLen, idx - cur);
    }
  }

  /** A file piece is fetched at the highest urgency exactly when some open player is reading a byte of it. */
  lemma NowIffPlayerThere(p: nat, readers: map<nat, ReaderSt>, pieceLen: nat, fs: int, fe: int, idx: int)
    requires pieceLen > 0 && fs <= idx <= fe && IsMerge(p, readers, pieceLen, fs, fe, idx)
    ensures p == PRIO_NOW <==> exists r :: r in readers && readers[r].cls.Playback? && ReadsIn(readers[r], pieceLen, idx)
  {
    forall r | r in readers && !readers[r].closed
      ensures Claim(readers[r], pieceLen, fs, fe, idx) == PRIO_NOW <==> readers[r].cls.Playback? && ReadsIn(readers[r], pieceLen, idx)
    {
      NowClaim(readers[r], pieceLen, fs, fe, idx);
    }
    if p == PRIO_NOW {
      var r :| r in readers && Claim(readers[r], pieceLen, fs, fe, idx) == p;
      assert !readers[r].closed;
    }
    if r :| r in readers && readers[r].cls.Playback? && ReadsIn(readers[r], pieceLen, idx) {
      assert Claim(readers[r], pieceLen, fs, fe, idx) == PRIO_NOW <= p;
      var q :| q in readers && Claim(readers[q], pieceLen, fs, fe, idx) == p;
    }
  }

  lemma NowClaim(r: ReaderSt, pieceLen: nat, fs: int, fe: int, idx: int)
    requires pieceLen > 0 && !r.closed && fs <= idx <= fe
    ensures Claim(r, pieceLen, fs, fe, idx) == PRIO_NOW <==> r.cls.Playback? && ReadsIn(r, pieceLen, idx)
  {
    var cur := (r.fileOffset + r.pos) / pieceLen;
    QuotientIsPiece(r.fileOffset + r.pos, pieceLen, cur);
    QuotientIsPiece(r.fileOffset + r.pos, pieceLen, idx);
    ClaimIs(r, pieceLen, fs, fe, cur, idx);
  }

  /** Every open reader gets at least what it wants. */
  ghost predicate Serves(set_: map<int, nat>, readers: map<nat, ReaderSt>, pieceLen: nat, fs: int, fe: int) {
    forall i: int, r: nat, cur: int :: i in set_ && r in readers && ReadsIn(readers[r], pieceLen, cur) ==>
      set_[i] >= Wants(readers[r].cls, pieceLen, fs, fe, cur, i)
  }

  /** No piece gets more than some open reader wants. */
  ghost predicate Spares(set_: map<int, nat>, readers: map<nat, ReaderSt>, pieceLen: nat, fs: int, fe: int) {
    forall i: int :: i in set_ && set_[i] != PRIO_NONE ==>
      exists r: nat, cur: int :: r in readers && ReadsIn(readers[r], pieceLen, cur) && set_[i] == Wants(readers[r].cls, pieceLen, fs, fe, cur, i)
  }

  lemma MergedServes(set_: map<int, nat>, readers: map<nat, ReaderSt>, pieceLen: nat, fs: int, fe: int)
    requires pieceLen > 0 && forall i :: i in set_ ==> fs <= i <= fe && IsMerge(set_[i], readers, pieceLen, fs, fe, i)
    ensures Serves(set_, readers, pieceLen, fs, fe)
  {
    forall i: int, r: nat, cur: int | i in set_ && r in readers && ReadsIn(readers[r], pieceLen, cur)
      ensures set_[i] >= Wants(readers[r].cls, pieceLen, fs, fe, cur, i)
    {
      ClaimIs(readers[r], pieceLen, fs, fe, cur, i);
    }
  }

  lemma SomebodyWants(p: nat, readers: map<nat, ReaderSt>, pieceLen: nat, fs: int, fe: int, i: int) returns (r: nat, cur: int)
    requires pieceLen > 0 && fs <= i <= fe && IsMerge(p, readers, pieceLen, fs, fe, i) && p != PRIO_NONE
    ensures r in readers && ReadsIn(readers[r], pieceLen, cur) && p == Wants(readers[r].cls, pieceLen, fs, fe, cur, i)
  {
    r :| r in readers && Claim(readers[r], pieceLen, fs, fe, i) == p;
    cur := CurrPiece(readers[r], pieceLen);
    QuotientIsPiece(readers[r].fileOffset + readers[r].pos, pieceLen, cur);
    ClaimIs(readers[r], pieceLen, fs, fe, cur, i);
  }

  lemma MergedSpares(set_: map<int, nat>, readers: map<nat, ReaderSt>, pieceLen: nat, fs: int, fe: int)
    requires pieceLen > 0 && forall i :: i in set_ ==> fs <= i <= fe && IsMerge(set_[i], readers, pieceLen, fs, fe, i)
    ensures Spares(set_, readers, pieceLen, fs, fe)
  {
    forall i: int | i in set_ && set_[i] != PRIO_NONE
      ensures exists r: nat, cur: int :: r in readers && ReadsIn(readers[r], pieceLen, cur) && set_[i] == Wants(readers[r].cls, pieceLen, fs, fe, cur, i)
    {
      var r, cur := SomebodyWants(set_[i], readers, pieceLen, fs, fe, i);
    }
  }
}
