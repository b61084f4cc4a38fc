/** How one piece object changes while a reader holds on to it (storage/mempiece.go, storage/piece.go). */
module PieceLife {
  import opened Common
  import opened MemPieces

  datatype PieceStep = WriteChunk(off: nat, len: nat) | Verified | Reload | Release

  /** The torrent client writes true bytes in whole blocks and completes a piece it has verified. */
  predicate Lawful(m: Mem, truth: seq<byte>, step: PieceStep) {
    match step
    case WriteChunk(off, len) => off + len <= |truth| && WholeBlocks(off, len, m.size)
    case Verified => m.data == Some(truth)
    case _ => true
  }

  function After(m: Mem, truth: seq<byte>, step: PieceStep): Mem {
    match step
    case WriteChunk(off, len) => if off + len <= |truth| then Written(m, truth[off..off + len], off, m.accessed) else m
    case Verified => Completed(m, m.accessed)
    case Reload => Loaded(m, truth, m.accessed)
    case Release => Released(m)
  }

  function AfterAll(m: Mem, truth: seq<byte>, steps: seq<PieceStep>): Mem
    decreases |steps|
  {
    if steps == [] then m else AfterAll(After(m, truth, steps[0]), truth, steps[1..])
  }

  /** A lawful life in which no chunk lands once the piece has been given back. */
  predicate LawfulLife(m: Mem, truth: seq<byte>, steps: seq<PieceStep>, released: bool)
    decreases |steps|
  {
    steps != [] ==>
      && Lawful(m, truth, steps[0]) && !(released && steps[0].WriteChunk?)
      && LawfulLife(After(m, truth, steps[0]), truth, steps[1..], released || steps[0].Release?)
  }

  lemma {:induction false} LifeSplits(m: Mem, truth: seq<byte>, past: seq<PieceStep>, gap: seq<PieceStep>, released: bool)
    requires LawfulLife(m, truth, past + gap, released)
    ensures LawfulLife(m, truth, past, released)
    ensures LawfulLife(AfterAll(m, truth, past), truth, gap, released || Release in past)
    decreases |past|
  {
    if past == [] {
      assert past + gap == gap;
    } else {
      assert (past + gap)[1..] == past[1..] + gap;
      LifeSplits(After(m, truth, past[0]), truth, past[1..], gap, released || past[0].Release?);
    }
  }

  /** What a life keeps: the block map is truthful, and after release the piece is empty or whole. */
  ghost predicate Sane(m: Mem, truth: seq<byte>, released: bool) {
    Faithful(m, truth) && (released ==> m.data.None? || IsComplete(m))
  }

  lemma ChunkKeepsSane(m: Mem, truth: seq<byte>, o: nat, n: nat)
    requires Sane(m, truth, false) && Lawful(m, truth, WriteChunk(o, n))
    ensures Sane(After(m, truth, WriteChunk(o, n)), truth, false)
  {
    var m' := Written(m, truth[o..o + n], o, m.accessed);
    WholeBlocksKeepFaith(m, truth, o, n, m.accessed);
    assert Sane(m', truth, false);
    assert After(m, truth, WriteChunk(o, n)) == m';
  }

  lemma VerifiedKeepsSane(m: Mem, truth: seq<byte>, released: bool)
    requires Sane(m, truth, released) && m.data == Some(truth)
    ensures Sane(After(m, truth, Verified), truth, released)
  {
    OtherStepsKeepFaith(m, truth, m.accessed);
  }

  lemma ReloadKeepsSane(m: Mem, truth: seq<byte>, released: bool)
    requires Sane(m, truth, released)
    ensures Sane(After(m, truth, Reload), truth, released)
  {
    OtherStepsKeepFaith(m, truth, m.accessed);
  }

  lemma ReleaseKeepsSane(m: Mem, truth: seq<byte>)
    requires Faithful(m, truth)
    ensures Sane(After(m, truth, Release), truth, true)
  {
    OtherStepsKeepFaith(m, truth, m.accessed);
  }

  lemma StepKeepsSane(m: Mem, truth: seq<byte>, released: bool, step: PieceStep)
    requires Sane(m, truth, released) && Lawful(m, truth, step) && !(released && step.WriteChunk?)
    ensures Sane(After(m, truth, step), truth, released || step.Release?)
  {
    match step
    case WriteChunk(o, n) => ChunkKeepsSane(m, truth, o, n);
    case Verified => VerifiedKeepsSane(m, truth, released);
    case Reload => ReloadKeepsSane(m, truth, released);
    case Release => ReleaseKeepsSane(m, truth);
  }

  lemma {:induction false} LifeKeepsSane(m: Mem, truth: seq<byte>, steps: seq<PieceStep>, released: bool)
    requires Sane(m, truth, released) && LawfulLife(m, truth, steps, released)
    ensures Sane(AfterAll(m, truth, steps), truth, released || Release in steps)
    ensures AfterAll(m, truth, steps).size == m.size
    decreases |steps|
  {
    if steps != [] {
      StepKeepsSane(m, truth, released, steps[0]);
      LifeKeepsSane(After(m, truth, steps[0]), truth, steps[1..], released || steps[0].Release?);
    }
  }

  /** From creation on, over every lawful life, a piece tells the truth. */
  lemma {:induction false} LifeIsFaithful(truth: seq<byte>, now: nat, steps: seq<PieceStep>)
    requires LawfulLife(Fresh(|truth|, now), truth, steps, false)
    ensures Faithful(AfterAll(Fresh(|truth|, now), truth, steps), truth)
  {
    LifeKeepsSane(Fresh(|truth|, now), truth, steps, false);
  }

  /** A range that was available stays so; after release the piece is empty or whole. */
  ghost predicate StillReadable(m: Mem, truth: seq<byte>, released: bool, off: nat, len: nat) {
    && Faithful(m, truth)
    && (if released then m.data.None? || IsComplete(m) else HasRange(m, off, len))
  }

  lemma VerifiedKeepsReadable(m: Mem, truth: seq<byte>, released: bool, off: nat, len: nat)
    requires StillReadable(m, truth, released, off, len) && m.data == Some(truth)
    ensures StillReadable(After(m, truth, Verified), truth, released, off, len)
  {
    OtherStepsKeepFaith(m, truth, m.accessed);
  }

  lemma ReloadKeepsReadable(m: Mem, truth: seq<byte>, released: bool, off: nat, len: nat)
    requires StillReadable(m, truth, released, off, len)
    ensures StillReadable(After(m, truth, Reload), truth, released, off, len)
  {
    OtherStepsKeepFaith(m, truth, m.accessed);
  }

  lemma ChunkKeepsReadable(m: Mem, truth: seq<byte>, off: nat, len: nat, o: nat, n: nat)
    requires StillReadable(m, truth, false, off, len) && Lawful(m, truth, WriteChunk(o, n))
    ensures StillReadable(After(m, truth, WriteChunk(o, n)), truth, false, off, len)
  {
    var m' := Written(m, truth[o..o + n], o, m.accessed);
    assert After(m, truth, WriteChunk(o, n)) == m';
    WholeBlocksKeepFaith(m, truth, o, n, m.accessed);
    WriteKeepsRange(m, truth[o..o + n], o, m.accessed, off, len);
    assert StillReadable(m', truth, false, off, len);
  }

  lemma StepKeepsReadable(m: Mem, truth: seq<byte>, released: bool, off: nat, len: nat, step: PieceStep)
    requires StillReadable(m, truth, released, off, len) && Lawful(m, truth, step) && !(released && step.WriteChunk?)
    ensures StillReadable(After(m, truth, step), truth, released || step.Release?, off, len)
  {
    match step
    case WriteChunk(o, n) => ChunkKeepsReadable(m, truth, off, len, o, n);
    case Verified => VerifiedKeepsReadable(m, truth, released, off, len);
    case Reload => ReloadKeepsReadable(m, truth, released, off, len);
    case Release => ReleaseKeepsReadable(m, truth, off, len);
  }

  lemma ReleaseKeepsReadable(m: Mem, truth: seq<byte>, off: nat, len: nat)
    requires Faithful(m, truth)
    ensures StillReadable(After(m, truth, Release), truth, true, off, len)
  {
  }

  lemma WriteKeepsRange(m: Mem, p: seq<byte>, o: nat, now: nat, off: nat, len: nat)
    requires HasRange(m, off, len)
    ensures HasRange(Written(m, p, o, now), off, len)
  {
  }

  /**
   A reader that found [off, off+len) available reads, from the same object and however much later,
   either the true bytes or the news that the piece was evicted.
   */
  lemma {:induction false} LaterReadIsTrue(m: Mem, truth: seq<byte>, steps: seq<PieceStep>, released: bool, off: nat, len: nat)
    requires StillReadable(m, truth, released, off, len) && LawfulLife(m, truth, steps, released)
    requires len > 0 && off + len <= m.size
    ensures var m' := AfterAll(m, truth, steps);
            m'.data.None? || ReadBytes(m', len, off) == (truth[off..off + len], ReadOk)
    ensures Release !in steps && m.data.Some? ==> AfterAll(m, truth, steps).data.Some?
    decreases |steps|
  {
    if steps == [] {
      if m.data.Some? {
        AvailableRangeIsTrue(m, truth, off, len);
      }
    } else {
      StepKeepsReadable(m, truth, released, off, len, steps[0]);
      LaterReadIsTrue(After(m, truth, steps[0]), truth, steps[1..], released || steps[0].Release?, off, len);
    }
  }

  /**
   The whole story of one read: a piece with any lawful life since its creation, found at some point to
   offer [off, off+len), read from after whatever else happened to it.
   */
  lemma {:induction false} ReadAfterLookIsTrue(truth: seq<byte>, past: seq<PieceStep>, gap: seq<PieceStep>, off: nat, len: nat)
    requires LawfulLife(Fresh(|truth|, 0), truth, past + gap, false) && len > 0 && off + len <= |truth|
    requires HasRange(AfterAll(Fresh(|truth|, 0), truth, past), off, len)
    ensures var m' := AfterAll(AfterAll(Fresh(|truth|, 0), truth, past), truth, gap);
            m'.data.None? || ReadBytes(m', len, off) == (truth[off..off + len], ReadOk)
    ensures Release !in gap ==> AfterAll(AfterAll(Fresh(|truth|, 0), truth, past), truth, gap).data.Some?
  {
    var m0 := Fresh(|truth|, 0);
    LifeSplits(m0, truth, past, gap, false);
    LifeKeepsSane(m0, truth, past, false);
    LaterReadIsTrue(AfterAll(m0, truth, past), truth, gap, Release in past, off, len);
  }

  // ---------------------------------------------------------------- when a range is ready

  /** Some chunk of the life covered byte `i`. */
  ghost predicate Landed(steps: seq<PieceStep>, i: int) {
    exists s :: s in steps && s.WriteChunk? && s.off <= i < s.off + s.len
  }

  /** The piece was verified, or read back from disk before anything was written to it. */
  predicate CameWhole(steps: seq<PieceStep>, started: bool)
    decreases |steps|
  {
    steps != [] &&
    (steps[0].Verified? || (steps[0].Reload? && !started) || CameWhole(steps[1..], started || steps[0].WriteChunk?))
  }

  predicate ByteIn(m: Mem, i: nat) { m.data.Some? && i / BLOCK < |m.written| && m.written[i / BLOCK] }

  predicate Tracked(m: Mem) { |m.written| == Blocks(m.size) }

  lemma BlockOfByte(i: nat, size: nat)
    requires i < size
    ensures i / BLOCK < Blocks(size)
  {
  }

  /** A byte of the range in block `b`. */
  lemma ByteOfBlock(off: nat, len: nat, b: nat)
    requires len > 0 && off / BLOCK <= b <= (off + len - 1) / BLOCK
    ensures exists i :: off <= i < off + len && i / BLOCK == b
  {
    var i := if b * BLOCK < off then off else b * BLOCK;
    assert off <= i < off + len && i / BLOCK == b;
  }

  lemma HasRangeIff(m: Mem, off: nat, len: nat)
    requires Tracked(m) && len > 0 && off + len <= m.size
    ensures HasRange(m, off, len) <==> IsComplete(m) || forall i :: off <= i < off + len ==> ByteIn(m, i)
  {
    BlockOfByte(off + len - 1, m.size);
    if HasRange(m, off, len) && !IsComplete(m) {
      forall i | off <= i < off + len ensures ByteIn(m, i) {
        assert off / BLOCK <= i / BLOCK <= (off + len - 1) / BLOCK;
      }
    }
    if forall i :: off <= i < off + len ==> ByteIn(m, i) {
      forall b | off / BLOCK <= b <= (off + len - 1) / BLOCK ensures m.data.Some? && b < |m.written| && m.written[b] {
        ByteOfBlock(off, len, b);
        var i :| off <= i < off + len && i / BLOCK == b;
        assert ByteIn(m, i);
      }
      assert ByteIn(m, off) && ByteIn(m, off + len - 1);
    }
  }

  /** A lawful chunk marks exactly the bytes it brings. */
  lemma ChunkBringsIff(m: Mem, truth: seq<byte>, o: nat, n: nat, i: nat)
    requires Faithful(m, truth) && Tracked(m) && o + n <= |truth| && WholeBlocks(o, n, m.size) && i < m.size
    ensures ByteIn(After(m, truth, WriteChunk(o, n)), i) <==> ByteIn(m, i) || o <= i < o + n
  {
    BlockOfByte(i, m.size);
    if o < m.size && !(o <= i < o + n) {
      OutsideIsUnmarked(o, n, m.size, i);
    } else if o < m.size {
      assert o / BLOCK <= i / BLOCK <= (o + n - 1) / BLOCK;
    }
  }

  lemma ChunkTracked(m: Mem, truth: seq<byte>, step: PieceStep)
    requires Faithful(m, truth) && Tracked(m) && Lawful(m, truth, step) && !step.Release?
    ensures Tracked(After(m, truth, step)) && After(m, truth, step).size == m.size
  {
  }

  /** What is in the piece, or will come in the life ahead. */
  ghost predicate WillHave(m: Mem, steps: seq<PieceStep>, i: nat) { ByteIn(m, i) || Landed(steps, i) }

  ghost predicate WillBeReady(m: Mem, steps: seq<PieceStep>, off: nat, len: nat) {
    IsComplete(m) || CameWhole(steps, m.data.Some?) || forall i :: off <= i < off + len ==> WillHave(m, steps, i)
  }

  lemma LandedFirst(step: PieceStep, rest: seq<PieceStep>, i: int)
    ensures Landed([step] + rest, i) <==> (step.WriteChunk? && step.off <= i < step.off + step.len) || Landed(rest, i)
  {
    if step.WriteChunk? && step.off <= i < step.off + step.len {
      assert step in [step] + rest;
    }
    if Landed(rest, i) {
      var s :| s in rest && s.WriteChunk? && s.off <= i < s.off + s.len;
      assert s in [step] + rest;
    }
  }

  lemma ChunkWillBeReady(m: Mem, truth: seq<byte>, o: nat, n: nat, rest: seq<PieceStep>, off: nat, len: nat)
    requires Sane(m, truth, false) && Tracked(m) && Lawful(m, truth, WriteChunk(o, n)) && off + len <= m.size
    ensures WillBeReady(m, [WriteChunk(o, n)] + rest, off, len) <==> WillBeReady(After(m, truth, WriteChunk(o, n)), rest, off, len)
  {
    var step := WriteChunk(o, n);
    var m' := After(m, truth, step);
    assert IsComplete(m') <==> IsComplete(m);
    assert ([step] + rest)[1..] == rest;
    forall i | off <= i < off + len ensures WillHave(m, [step] + rest, i) <==> WillHave(m', rest, i) {
      ChunkBringsIff(m, truth, o, n, i);
      LandedFirst(step, rest, i);
    }
  }

  lemma OtherWillBeReady(m: Mem, truth: seq<byte>, step: PieceStep, rest: seq<PieceStep>, off: nat, len: nat)
    requires Sane(m, truth, false) && Tracked(m) && Lawful(m, truth, step) && (step.Verified? || step.Reload?) && off + len <= m.size
    ensures WillBeReady(m, [step] + rest, off, len) <==> WillBeReady(After(m, truth, step), rest, off, len)
  {
    assert ([step] + rest)[1..] == rest;
    if step.Reload? && m.data.Some? {
      forall i | off <= i < off + len ensures WillHave(m, [step] + rest, i) <==> WillHave(m, rest, i) {
        LandedFirst(step, rest, i);
      }
    }
  }

  lemma {:induction false} ReadyAfterIff(m: Mem, truth: seq<byte>, steps: seq<PieceStep>, off: nat, len: nat)
    requires Sane(m, truth, false) && Tracked(m) && LawfulLife(m, truth, steps, false) && Release !in steps
    requires len > 0 && off + len <= m.size
    ensures HasRange(AfterAll(m, truth, steps), off, len) <==> WillBeReady(m, steps, off, len)
    decreases |steps|
  {
    if steps == [] {
      HasRangeIff(m, off, len);
      assert forall i :: off <= i < off + len ==> (WillHave(m, steps, i) <==> ByteIn(m, i));
    } else {
      var step, rest := steps[0], steps[1..];
      assert steps == [step] + rest && step != Release;
      StepKeepsSane(m, truth, false, step);
      ChunkTracked(m, truth, step);
      ReadyAfterIff(After(m, truth, step), truth, rest, off, len);
      if step.WriteChunk? {
        ChunkWillBeReady(m, truth, step.off, step.len, rest, off, len);
      } else {
        OtherWillBeReady(m, truth, step, rest, off, len);
      }
    }
  }

  /**
   Exactly when a range of a piece that has not been given back is ready: the piece was verified or read back
   whole, or every byte of the range was brought by some chunk.
   */
  lemma {:induction false} ReadyIff(truth: seq<byte>, steps: seq<PieceStep>, off: nat, len: nat)
    requires LawfulLife(Fresh(|truth|, 0), truth, steps, false) && Release !in steps
    requires len > 0 && off + len <= |truth|
    ensures HasRange(AfterAll(Fresh(|truth|, 0), truth, steps), off, len)
            <==> CameWhole(steps, false) || forall i :: off <= i < off + len ==> Landed(steps, i)
  {
    var m := Fresh(|truth|, 0);
    ReadyAfterIff(m, truth, steps, off, len);
    forall i | off <= i < off + len ensures WillHave(m, steps, i) <==> Landed(steps, i) {
    }
  }

  /** The piece after it is given back and one more chunk, [o, o+n), lands in it. */
  function LateChunk(m: Mem, truth: seq<byte>, o: nat, n: nat): Mem {
    After(After(m, truth, Release), truth, WriteChunk(o, n))
  }

  /** What it then holds: the chunk, and zeros everywhere else. */
  lemma LateChunkHolds(m: Mem, truth: seq<byte>, o: nat, n: nat, i: nat)
    requires |truth| == m.size && o + n <= m.size && i < m.size
    ensures var d := LateChunk(m, truth, o, n).data;
            d.Some? && |d.value| == m.size && d.value[i] == if o <= i < o + n then truth[i] else 0
  {
    assert truth[o..o + n][..n] == truth[o..o + n];
  }

  ghost predicate LateReadIsTrue(m: Mem, truth: seq<byte>, o: nat, n: nat, off: nat, len: nat) {
    IsComplete(m) && Faithful(m, truth) && o + n <= m.size && off + len <= m.size ==>
      ReadBytes(LateChunk(m, truth, o, n), len, off) == (truth[off..off + len], ReadOk)
  }

  lemma CoveredLateRead(m: Mem, truth: seq<byte>, o: nat, n: nat, off: nat, len: nat)
    requires len > 0 && o <= off && off + len <= o + n <= m.size
    ensures LateReadIsTrue(m, truth, o, n, off, len)
  {
    if IsComplete(m) && Faithful(m, truth) {
      var d := LateChunk(m, truth, o, n).data;
      forall i | 0 <= i < m.size ensures d.Some? && |d.value| == m.size && (o <= i < o + n ==> d.value[i] == truth[i]) {
        LateChunkHolds(m, truth, o, n, i);
      }
      assert d.value[off..off + len] == truth[off..off + len];
    }
  }

  /** A complete piece of all ones, and a byte of the range the chunk does not cover. */
  lemma UncoveredLateRead(size: nat, o: nat, n: nat, off: nat, len: nat)
    requires off + len <= size && o + n <= size && len > 0 && !(o <= off && off + len <= o + n)
    ensures var truth := seq(size, _ => 1 as byte); var m := Loaded(Fresh(size, 0), truth, 0);
            m.size == size && !LateReadIsTrue(m, truth, o, n, off, len)
  {
    var truth := seq(size, _ => 1 as byte);
    var m := Loaded(Fresh(size, 0), truth, 0);
    var i := if o <= off && off < o + n then o + n else off;
    LateChunkHolds(m, truth, o, n, i);
    var d := LateChunk(m, truth, o, n).data.value;
    assert d[off..off + len][i - off] == 0 && truth[off..off + len][i - off] == 1;
  }

  /**
   Why a late chunk matters, exactly: when one lands in a piece that was given back after a reader found
   its range, that reader is sure of the true bytes if and only if the chunk covers the whole range.
   */
  lemma LateChunkReadsTrueIff(size: nat, o: nat, n: nat, off: nat, len: nat)
    requires off + len <= size && o + n <= size && len > 0
    ensures (forall m: Mem, truth: seq<byte> :: m.size == size ==> LateReadIsTrue(m, truth, o, n, off, len))
            <==> o <= off && off + len <= o + n
  {
    if o <= off && off + len <= o + n {
      forall m: Mem, truth: seq<byte> | m.size == size ensures LateReadIsTrue(m, truth, o, n, off, len) {
        CoveredLateRead(m, truth, o, n, off, len);
      }
    } else {
      UncoveredLateRead(size, o, n, off, len);
    }
  }
}

/** The file reader over the piece cache (storage/reader.go). */
module Readers {
  import opened Common
  import opened MemPieces
  import opened PieceLife
  import opened Torrents

  /**
   One turn of the reader's wait loop. `past` is all that has happened to each piece object from its
   creation to the moment readiness is checked; `gap` is what happens to that same object before it is
   read; `interrupted` says the wait ended by a deadline, a cancellation or a close rather than by a wakeup.
   */
  datatype Moment = Moment(past: nat -> seq<PieceStep>, gap: nat -> seq<PieceStep>, interrupted: bool)

  /** The piece the reader looks at. */
  function Look(t: Torrent, m: Moment, i: nat): Mem
    requires ValidTorrent(t) && i < t.count
  {
    AfterAll(Fresh(|Region(t, t.truth, i)|, 0), Region(t, t.truth, i), m.past(i))
  }

  /** What the torrent client does: every piece object leads a lawful life. */
  ghost predicate Lives(t: Torrent, m: Moment)
    requires ValidTorrent(t)
  {
    forall i: nat :: i < t.count ==>
      LawfulLife(Fresh(|Region(t, t.truth, i)|, 0), Region(t, t.truth, i), m.past(i) + m.gap(i), false)
  }

  /** Byte `k` of piece `i` is there when it is looked at, and the piece is not given back before it is read. */
  ghost predicate Here(t: Torrent, m: Moment, i: nat, k: nat)
    requires ValidTorrent(t) && i < t.count
  {
    Release !in m.gap(i) && (IsComplete(Look(t, m, i)) || (Release !in m.past(i) && Landed(m.past(i), k)))
  }

  /** No byte of the torrent's [lo, hi) is missing and nothing interferes. */
  ghost predicate Steady(t: Torrent, m: Moment, lo: int, hi: int)
    requires ValidTorrent(t)
  {
    !m.interrupted && forall i: nat, k: nat :: i < t.count && k < Size(t, i) && lo <= Off(t, i) + k < hi ==> Here(t, m, i, k)
  }

  ghost predicate AllLive(t: Torrent, env: seq<Moment>)
    requires ValidTorrent(t)
  {
    forall j :: 0 <= j < |env| ==> Lives(t, env[j])
  }

  ghost predicate AllSteady(t: Torrent, env: seq<Moment>, lo: int, hi: int)
    requires ValidTorrent(t)
  {
    forall j :: 0 <= j < |env| ==> Steady(t, env[j], lo, hi)
  }

  /** When just the bytes asked for have landed, the range is ready. */
  lemma SteadyIsReady(t: Torrent, m: Moment, lo: int, hi: int, i: nat, off: nat, n: nat)
    requires ValidTorrent(t) && Lives(t, m) && Steady(t, m, lo, hi) && i < t.count
    requires n > 0 && off + n <= Size(t, i) && lo <= Off(t, i) + off && Off(t, i) + off + n <= hi
    ensures HasRange(Look(t, m, i), off, n) && Release !in m.gap(i)
  {
    var truth := Region(t, t.truth, i);
    forall k | off <= k < off + n ensures Here(t, m, i, k) {
    }
    assert Here(t, m, i, off);
    if !IsComplete(Look(t, m, i)) {
      LifeSplits(Fresh(|truth|, 0), truth, m.past(i), m.gap(i), false);
      forall k | off <= k < off + n ensures Landed(m.past(i), k) {
        assert Here(t, m, i, k);
      }
      ReadyIff(truth, m.past(i), off, n);
    }
  }

  datatype Err = NoError | EOF | ReaderClosed | Interrupted | BadSeek

  /** The piece and the offset in it where byte `abs` lies. */
  lemma Locate(t: Torrent, abs: nat)
    requires ValidTorrent(t) && abs < |t.truth|
    ensures abs / t.pieceLen < t.count && abs % t.pieceLen < Size(t, abs / t.pieceLen)
    ensures Off(t, abs / t.pieceLen) + abs % t.pieceLen == abs
  {
    var i, r := abs / t.pieceLen, abs % t.pieceLen;
    assert abs == i * t.pieceLen + r;
    if i >= t.count {
      MulMono(t.count, i, t.pieceLen);
    }
  }

  lemma LastPieceSize(t: Torrent, i: nat)
    requires ValidTorrent(t) && i < t.count
    ensures Size(t, i) == if i == t.count - 1 then |t.truth| - i * t.pieceLen else t.pieceLen
  {
    if i < t.count - 1 {
      assert (i + 1) * t.pieceLen <= (t.count - 1) * t.pieceLen;
    } else {
      assert t.count * t.pieceLen == i * t.pieceLen + t.pieceLen;
    }
  }

  /** A slice of a piece is a slice of the torrent. */
  lemma PieceSlice(t: Torrent, i: nat, off: nat, n: nat)
    requires ValidTorrent(t) && i < t.count && off + n <= Size(t, i)
    ensures Off(t, i) + off + n <= |t.truth|
    ensures Region(t, t.truth, i)[off..off + n] == t.truth[Off(t, i) + off..Off(t, i) + off + n]
  {
    RegionInFile(t, i);
    SliceOfSlice(t.truth, Off(t, i), Size(t, i), off, n);
  }

  lemma SliceOfSlice<T>(s: seq<T>, o: nat, m: nat, a: nat, n: nat)
    requires o + m <= |s| && a + n <= m
    ensures s[o..o + m][a..a + n] == s[o + a..o + a + n]
  {
    var x, y := s[o..o + m][a..a + n], s[o + a..o + a + n];
    forall k | 0 <= k < n ensures x[k] == y[k] {
      assert s[o..o + m][a + k] == s[o + a + k];
    }
  }

  /** What a read of the piece looked at gives, after whatever happened in between. */
  function ReadFrom(t: Torrent, m: Moment, i: nat, len: nat, off: nat): (seq<byte>, ReadStatus)
    requires ValidTorrent(t) && i < t.count
  {
    ReadBytes(AfterAll(Look(t, m, i), Region(t, t.truth, i), m.gap(i)), len, off)
  }

  /** The torrent's bytes, or none; and not none if the piece is not given back in between. */
  lemma ReadIsTrue(t: Torrent, m: Moment, i: nat, off: nat, n: nat)
    requires ValidTorrent(t) && Lives(t, m) && i < t.count && 0 < n && off + n <= Size(t, i) && HasRange(Look(t, m, i), off, n)
    ensures var at := Off(t, i) + off; var bytes := ReadFrom(t, m, i, n, off).0;
            && at + n <= |t.truth|
            && (bytes == [] || bytes == t.truth[at..at + n])
            && (Release !in m.gap(i) ==> bytes == t.truth[at..at + n])
  {
    ReadAfterLookIsTrue(Region(t, t.truth, i), m.past(i), m.gap(i), off, n);
    PieceSlice(t, i, off, n);
  }

  class Reader {
    const t: Torrent
    const fileOffset: nat
    const fileSize: nat
    var pos: nat
    var closed: bool

    ghost predicate Valid() {
      ValidTorrent(t) && fileOffset + fileSize <= |t.truth|
    }

    /** The file as one flat sequence. */
    ghost function File(): (f: seq<byte>)
      requires Valid()
      ensures |f| == fileSize
    {
      t.truth[fileOffset..fileOffset + fileSize]
    }

    constructor (t: Torrent, fileOffset: nat, fileSize: nat)
      requires ValidTorrent(t) && fileOffset + fileSize <= |t.truth|
      ensures Valid() && this.t == t && this.fileOffset == fileOffset && this.fileSize == fileSize
      ensures pos == 0 && !closed
    {
      this.t, this.fileOffset, this.fileSize, pos, closed := t, fileOffset, fileSize, 0, false;
    }

    method Seek(offset: int, whence: int) returns (newPos: int, err: Err)
      modifies this`pos
      ensures var target := if whence == 0 then offset else if whence == 1 then old(pos) + offset else fileSize + offset;
              err == (if closed then ReaderClosed else if !(0 <= whence <= 2) || target < 0 then BadSeek else NoError) &&
              (if err == NoError then pos == newPos == target else pos == old(pos) && newPos == 0)
    {
      newPos := 0;
      if closed {
        return 0, ReaderClosed;
      }
      if !(0 <= whence <= 2) {
        return 0, BadSeek;
      }
      var target := if whence == 0 then offset else if whence == 1 then pos + offset else fileSize + offset;
      if target < 0 {
        return 0, BadSeek;
      }
      pos := target;
      return target, NoError;
    }

    method Close()
      modifies this`closed
      ensures closed
    {
      closed := true;
    }

    /** Waits until piece `idx` offers [off, off+len): the first turn that does, unless interrupted first. */
    method WaitReady(env: seq<Moment>, from: nat, idx: nat, off: nat, len: nat) returns (k: nat, ok: bool)
      requires Valid() && from <= |env| && idx < t.count
      ensures from <= k <= |env|
      ensures ok ==> k < |env| && HasRange(Look(t, env[k], idx), off, len)
      ensures !ok ==> k == |env| || (env[k].interrupted && !HasRange(Look(t, env[k], idx), off, len))
      ensures forall j :: from <= j < k ==> !HasRange(Look(t, env[j], idx), off, len)
    {
      k := from;
      while k < |env|
        invariant from <= k <= |env|
        invariant forall j :: from <= j < k ==> !HasRange(Look(t, env[j], idx), off, len)
      {
        if HasRange(Look(t, env[k], idx), off, len) {
          return k, true;
        }
        if env[k].interrupted {
          return k, false;
        }
        k := k + 1;
      }
      ok := false;
    }

    /** Reads up to `len` bytes at absolute offset `abs`, from the one piece that holds it. */
    method ReadOnce(env: seq<Moment>, from: nat, abs: nat, len: nat) returns (k: nat, bytes: seq<byte>, err: Err)
      requires Valid() && from <= |env| && len > 0 && abs + len <= |t.truth|
      requires AllLive(t, env)
      ensures from <= k <= |env| && |bytes| <= len && bytes == t.truth[abs..abs + |bytes|]
      ensures err == NoError || err == Interrupted
      ensures err == NoError ==> from < k
      ensures err != NoError ==> bytes == []
      ensures from < |env| && Steady(t, env[from], abs, abs + len) ==> err == NoError && k == from + 1 && bytes != []
    {
      var idx, off := abs / t.pieceLen, abs % t.pieceLen;
      Locate(t, abs);
      LastPieceSize(t, idx);
      var size := if idx == t.count - 1 then |t.truth| - idx * t.pieceLen else t.pieceLen;
      k, bytes, err := ReadPiece(env, from, idx, off, Min(len, size - off));
    }

    /** Waits for a range of one piece and reads it. */
    method ReadPiece(env: seq<Moment>, from: nat, idx: nat, off: nat, toRead: nat) returns (k: nat, bytes: seq<byte>, err: Err)
      requires Valid() && from <= |env| && toRead > 0 && idx < t.count && off + toRead <= Size(t, idx)
      requires AllLive(t, env)
      ensures from <= k <= |env| && |bytes| <= toRead
      ensures Off(t, idx) + off + toRead <= |t.truth| && bytes == t.truth[Off(t, idx) + off..Off(t, idx) + off + |bytes|]
      ensures if err == NoError then from < k else err == Interrupted && bytes == []
      ensures from < |env| && Steady(t, env[from], Off(t, idx) + off, Off(t, idx) + off + toRead) ==>
                err == NoError && k == from + 1 && bytes != []
    {
      PieceSlice(t, idx, off, toRead);
      if from < |env| && Steady(t, env[from], Off(t, idx) + off, Off(t, idx) + off + toRead) {
        SteadyIsReady(t, env[from], Off(t, idx) + off, Off(t, idx) + off + toRead, idx, off, toRead);
      }
      var ok;
      k, ok := WaitReady(env, from, idx, off, toRead);
      if !ok {
        return k, [], Interrupted;
      }
      assert Lives(t, env[k]);
      ReadIsTrue(t, env[k], idx, off, toRead);
      bytes, err, k := ReadFrom(t, env[k], idx, toRead, off).0, NoError, k + 1;
    }

    /**
     Reads into p[start..start+len]. Whatever pieces do meanwhile, the bytes delivered are exactly the
     file's bytes at the read position; without an error there are as many as were asked for, up to the
     end of the file; and if every piece stays available there is no error.
     */
    method Read(p: array<byte>, start: nat, len: nat, env: seq<Moment>) returns (n: nat, err: Err)
      requires Valid() && start + len <= p.Length && AllLive(t, env)
      modifies this`pos, p
      ensures n <= len && pos == old(pos) + n
      ensures n > 0 ==> old(pos) + n <= fileSize
      ensures p[..] == Splice(old(p[..]), FileBytes(old(pos), n), start)
      ensures err == ReaderClosed <==> closed
      ensures err == EOF <==> !closed && old(pos) >= fileSize
      ensures err == NoError ==> n == Min(len, fileSize - old(pos))
      ensures err != BadSeek && (err != NoError ==> n == 0 || err == Interrupted)
      ensures len <= |env| && AllSteady(t, env, fileOffset + old(pos), fileOffset + Min(old(pos) + len, fileSize)) ==> err != Interrupted
    {
      n := 0;
      if closed {
        return 0, ReaderClosed;
      }
      if pos >= fileSize {
        return 0, EOF;
      }
      var pos0 := pos;
      var out;
      out, err := Gather(env, Min(len, fileSize - pos));
      n := |out|;
      SliceOfSlice(t.truth, fileOffset, fileSize, pos0, n);
      CopyOut(p, start, out);
    }

    /** The read loop: piece after piece, advancing the position by what each one gives. */
    method Gather(env: seq<Moment>, want: nat) returns (out: seq<byte>, err: Err)
      requires Valid() && pos + want <= fileSize && AllLive(t, env)
      modifies this`pos
      ensures |out| <= want && pos == old(pos) + |out|
      ensures out == t.truth[fileOffset + old(pos)..fileOffset + old(pos) + |out|]
      ensures err == NoError || err == Interrupted
      ensures err == NoError ==> |out| == want
      ensures want <= |env| && AllSteady(t, env, fileOffset + old(pos), fileOffset + old(pos) + want) ==> err == NoError
    {
      var k, at := 0, fileOffset + pos;
      out, err := [], NoError;
      while |out| < want
        invariant |out| <= want && k <= |env| && err == NoError && pos == old(pos) + |out|
        invariant out == t.truth[at..at + |out|]
        invariant AllSteady(t, env, at, at + want) ==> k <= |out|
        decreases |env| - k
      {
        var bytes;
        k, bytes, err := ReadOnce(env, k, at + |out|, want - |out|);
        if err != NoError {
          return;
        }
        assert t.truth[at..at + |out| + |bytes|] == out + bytes;
        out, pos := out + bytes, pos + |bytes|;
      }
    }

    /** The `n` bytes of the file at `from`; none past its end. */
    ghost function FileBytes(from: nat, n: nat): (b: seq<byte>)
      requires Valid()
      ensures from + n <= fileSize ==> |b| == n
    {
      if from + n <= fileSize then File()[from..from + n] else []
    }

    lemma FileBytesConcat(from: nat, a: nat, b: nat)
      requires Valid() && from + a + b <= fileSize
      ensures FileBytes(from, a + b) == FileBytes(from, a) + FileBytes(from + a, b)
    {
    }

    static method CopyOut(p: array<byte>, at: nat, bytes: seq<byte>)
      requires at + |bytes| <= p.Length
      modifies p
      ensures p[..] == Splice(old(p[..]), bytes, at)
    {
      forall i | 0 <= i < |bytes| {
        p[at + i] := bytes[i];
      }
    }
  }
}

/** The header- and footer-caching reader in front of it (handlers/stream.go). */
module CachingReaders {
  import opened Common
  import opened MemPieces
  import opened Torrents
  import opened Readers

  const PRELOAD := 8388608

  /** Bytes of the file's head and tail kept in RAM; `endOffset` is where the tail starts. */
  class FileHeaders {
    var startBytes: seq<byte>
    var endBytes: seq<byte>
    var endOffset: nat

    /** What is cached is the file. */
    ghost predicate Mirrors(file: seq<byte>)
      reads this
    {
      && |startBytes| <= |file| && startBytes == file[..|startBytes|]
      && (endBytes != [] ==> endOffset + |endBytes| <= |file| && endBytes == file[endOffset..endOffset + |endBytes|])
    }

    constructor ()
      ensures startBytes == [] && endBytes == [] && endOffset == 0
      ensures forall file: seq<byte> :: Mirrors(file)
    {
      startBytes, endBytes, endOffset := [], [], 0;
    }
  }

  ghost predicate RunsLive(t: Torrent, envs: seq<seq<Moment>>)
    requires ValidTorrent(t)
  {
    forall i :: 0 <= i < |envs| ==> AllLive(t, envs[i])
  }

  /** The first read alone meets nothing missing, for long enough. */
  ghost predicate Ample(t: Torrent, envs: seq<seq<Moment>>, lo: int, hi: int)
    requires ValidTorrent(t)
  {
    envs != [] && AllSteady(t, envs[0], lo, hi) && hi - lo <= |envs[0]|
  }

  /** io.ReadFull: reads until the buffer is full or a read fails; keeps what came before the failure. */
  method ReadFull(r: Reader, len: nat, envs: seq<seq<Moment>>) returns (got: seq<byte>)
    requires r.Valid() && r.pos + len <= r.fileSize && RunsLive(r.t, envs)
    modifies r`pos
    ensures |got| <= len && got == r.FileBytes(old(r.pos), |got|)
    ensures !r.closed && Ample(r.t, envs, r.fileOffset + old(r.pos), r.fileOffset + old(r.pos) + len) ==> |got| == len
  {
    got := [];
    var pos0 := r.pos;
    for i := 0 to |envs|
      invariant |got| <= len && r.pos == pos0 + |got|
      invariant got == r.FileBytes(pos0, |got|)
      invariant i > 0 && !r.closed && Ample(r.t, envs, r.fileOffset + pos0, r.fileOffset + pos0 + len) ==> |got| == len
    {
      if |got| == len {
        return;
      }
      var more, err := ReadFresh(r, len - |got|, envs[i]);
      r.FileBytesConcat(pos0, |got|, |more|);
      got := got + more;
      if err != NoError {
        return;
      }
    }
  }

  method ReadFresh(r: Reader, len: nat, env: seq<Moment>) returns (got: seq<byte>, err: Err)
    requires r.Valid() && r.pos + len <= r.fileSize && AllLive(r.t, env)
    modifies r`pos
    ensures |got| <= len && got == r.FileBytes(old(r.pos), |got|) && r.pos == old(r.pos) + |got|
    ensures !r.closed && AllSteady(r.t, env, r.fileOffset + old(r.pos), r.fileOffset + old(r.pos) + len) && len <= |env| ==> |got| == len
  {
    var buf := new byte[len](_ => 0);
    ghost var before := buf[..];
    var n;
    n, err := r.Read(buf, 0, len, env);
    got := buf[..n];
    assert Splice(before, r.FileBytes(old(r.pos), n), 0)[..n] == r.FileBytes(old(r.pos), n);
  }

  /** Fills the cache from the torrent; partial and failed reads only ever leave less, never wrong, bytes. */
  method PreloadHeaders(t: Torrent, fileOffset: nat, fileSize: nat, fh: FileHeaders,
                        headEnvs: seq<seq<Moment>>, tailEnvs: seq<seq<Moment>>)
    requires ValidTorrent(t) && fileOffset + fileSize <= |t.truth|
    requires fh.Mirrors(t.truth[fileOffset..fileOffset + fileSize])
    requires RunsLive(t, headEnvs) && RunsLive(t, tailEnvs)
    modifies fh
    ensures fh.Mirrors(t.truth[fileOffset..fileOffset + fileSize])
    ensures |fh.startBytes| >= |old(fh.startBytes)| && |fh.endBytes| >= |old(fh.endBytes)|
    ensures Ample(t, headEnvs, fileOffset, fileOffset + Min(PRELOAD, fileSize)) ==> |fh.startBytes| >= Min(PRELOAD, fileSize)
    ensures Ample(t, tailEnvs, fileOffset + Max(fileSize - PRELOAD, 0), fileOffset + fileSize) ==> |fh.endBytes| >= Min(PRELOAD, fileSize)
  {
    var startMax, endMin := Min(PRELOAD, fileSize), Max(fileSize - PRELOAD, 0);
    var hasStart := |fh.startBytes| >= startMax;
    var hasEnd := endMin >= fileSize || |fh.endBytes| >= fileSize - endMin;
    if !hasStart {
      var got := FetchAt(t, fileOffset, fileSize, 0, startMax, headEnvs);
      if |got| > 0 && |fh.startBytes| < |got| {
        fh.startBytes := got;
      }
    }
    if !hasEnd {
      var got := FetchAt(t, fileOffset, fileSize, endMin, fileSize - endMin, tailEnvs);
      if |got| > 0 && |fh.endBytes| < |got| {
        fh.endOffset := endMin;
        fh.endBytes := got;
      }
    }
  }

  /** A fresh probe reader, positioned and read as far as it gets. */
  method FetchAt(t: Torrent, fileOffset: nat, fileSize: nat, at: nat, len: nat, envs: seq<seq<Moment>>) returns (got: seq<byte>)
    requires ValidTorrent(t) && fileOffset + fileSize <= |t.truth| && at + len <= fileSize && RunsLive(t, envs)
    ensures |got| <= len && got == t.truth[fileOffset..fileOffset + fileSize][at..at + |got|]
    ensures Ample(t, envs, fileOffset + at, fileOffset + at + len) ==> |got| == len
  {
    var r := new Reader(t, fileOffset, fileSize);
    var _, err := r.Seek(at, 0);
    got := ReadFull(r, len, envs);
  }

  class CachingReader {
    const reader: Reader
    const headers: FileHeaders?
    const fileSize: nat
    var pos: nat

    ghost predicate Valid()
      reads headers
    {
      reader.Valid() && fileSize == reader.fileSize && (headers != null ==> headers.Mirrors(reader.File()))
    }

    constructor (reader: Reader, headers: FileHeaders?)
      requires reader.Valid() && (headers != null ==> headers.Mirrors(reader.File()))
      ensures Valid() && this.reader == reader && this.headers == headers && pos == 0
    {
      this.reader, this.headers, this.fileSize, pos := reader, headers, reader.fileSize, 0;
    }

    /** Serves [pos, pos+want) from the cached head or tail when it lies entirely inside one of them. */
    method Cached(want: nat) returns (hit: Option<seq<byte>>)
      requires Valid() && 0 < want && pos + want <= fileSize
      ensures hit.Some? ==> hit.value == reader.FileBytes(pos, want)
    {
      hit := None;
      if headers == null {
        return;
      }
      if pos + want <= |headers.startBytes| {
        hit := Some(headers.startBytes[pos..pos + want]);
        SliceOfSlice(reader.File(), 0, |headers.startBytes|, pos, want);
      } else if pos >= headers.endOffset && pos + want <= headers.endOffset + |headers.endBytes| {
        var local := pos - headers.endOffset;
        hit := Some(headers.endBytes[local..local + want]);
        SliceOfSlice(reader.File(), headers.endOffset, |headers.endBytes|, local, want);
      }
    }

    /** Same promise as the reader underneath, for any cache contents. */
    method Read(p: array<byte>, len: nat, env: seq<Moment>) returns (n: nat, err: Err)
      requires Valid() && len <= p.Length && AllLive(reader.t, env)
      modifies this, reader, p
      ensures n <= len && pos == old(pos) + n
      ensures n > 0 ==> old(pos) + n <= fileSize
      ensures p[..] == Splice(old(p[..]), reader.FileBytes(old(pos), n), 0)
      ensures err == NoError ==> n == Min(len, fileSize - old(pos))
      ensures err == EOF <==> old(pos) >= fileSize
      ensures len <= |env| && AllSteady(reader.t, env, reader.fileOffset + old(pos), reader.fileOffset + Min(old(pos) + len, fileSize)) && !reader.closed ==>
                err == NoError || err == EOF
    {
      n, err := 0, NoError;
      if pos >= fileSize {
        return 0, EOF;
      }
      var want := Min(len, fileSize - pos);
      if want == 0 {
        return 0, NoError;
      }
      var hit := Cached(want);
      if hit.Some? {
        Reader.CopyOut(p, 0, hit.value);
        pos := pos + want;
        return want, NoError;
      }
      var _, serr := reader.Seek(pos, 0);
      if serr != NoError {
        return 0, serr;
      }
      n, err := reader.Read(p, 0, want, env);
      pos := pos + n;
    }
  }
}
