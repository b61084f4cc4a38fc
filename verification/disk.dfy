/**
 Disk mode (storage/disk.go): one data file with pieces at their natural offsets and a packed bitmap
 beside it, replaced atomically.
 */
module Bitmaps {
  import opened Common

  /** 1 << k. */
  function Mask(k: nat): byte
    requires k < 8
  {
    if k == 0 then 1 else 2 * Mask(k - 1)
  }

  predicate ByteBit(x: byte, k: nat) { k < 8 && x & Mask(k) != 0 }

  function WithByteBit(x: byte, k: nat): byte
    requires k < 8
  {
    x | Mask(k)
  }

  predicate Bit(packed: seq<byte>, i: nat) {
    i / 8 < |packed| && ByteBit(packed[i / 8], i % 8)
  }

  function WithBit(packed: seq<byte>, i: nat): seq<byte>
    requires i / 8 < |packed|
  {
    packed[i / 8 := WithByteBit(packed[i / 8], i % 8)]
  }

  /** `packed` is the bitmap of `have`: one bit a piece, in as few bytes as hold them. */
  predicate Packs(packed: seq<byte>, have: seq<bool>) {
    |packed| == (|have| + 7) / 8 && forall i :: 0 <= i < |have| ==> (Bit(packed, i) <==> have[i])
  }

  function Unpack(packed: seq<byte>, count: nat): (have: seq<bool>)
    ensures |have| == count
  {
    seq(count, i requires 0 <= i < count => Bit(packed, i))
  }

  /** Unpacking a packed vector gives it back, for every piece count. */
  lemma UnpackOfPacked(packed: seq<byte>, have: seq<bool>)
    requires Packs(packed, have)
    ensures Unpack(packed, |have|) == have
  {
  }

  lemma MaskTable(k: nat)
    requires k < 8
    ensures Mask(k) == if k == 0 then 1 else if k == 1 then 2 else if k == 2 then 4 else if k == 3 then 8
                       else if k == 4 then 16 else if k == 5 then 32 else if k == 6 then 64 else 128
  {
    assert Mask(0) == 1 && Mask(1) == 2 && Mask(2) == 4 && Mask(3) == 8;
    assert Mask(4) == 16 && Mask(5) == 32 && Mask(6) == 64 && Mask(7) == 128;
  }

  lemma OrSetsOneBit(x: byte, j: nat, k: nat)
    requires j < 8 && k < 8
    ensures ByteBit(WithByteBit(x, k), j) <==> j == k || ByteBit(x, j)
  {
    MaskTable(j);
    MaskTable(k);
  }

  lemma SetBitAt(packed: seq<byte>, i: nat, j: nat)
    requires i / 8 < |packed|
    ensures Bit(WithBit(packed, i), j) <==> Bit(packed, j) || j == i
  {
    if j / 8 == i / 8 {
      OrSetsOneBit(packed[i / 8], j % 8, i % 8);
    }
  }

  lemma SetBit(packed: seq<byte>, i: nat)
    requires i / 8 < |packed|
    ensures forall j: nat :: Bit(WithBit(packed, i), j) <==> Bit(packed, j) || j == i
  {
    forall j: nat ensures Bit(WithBit(packed, i), j) <==> Bit(packed, j) || j == i {
      SetBitAt(packed, i, j);
    }
  }

  method Pack(have: seq<bool>) returns (packed: seq<byte>)
    ensures Packs(packed, have)
  {
    packed := seq((|have| + 7) / 8, _ => 0);
    for i := 0 to |have|
      invariant |packed| == (|have| + 7) / 8
      invariant forall j :: 0 <= j < |have| ==> (Bit(packed, j) <==> j < i && have[j])
    {
      if have[i] {
        SetBit(packed, i);
        packed := WithBit(packed, i);
      }
    }
  }

  method Load(packed: seq<byte>, count: nat) returns (have: seq<bool>)
    ensures have == Unpack(packed, count)
  {
    have := seq(count, _ => false);
    var i := 0;
    while i < count && i / 8 < |packed|
      invariant 0 <= i <= count && |have| == count
      invariant forall j :: 0 <= j < count ==> have[j] == (j < i && Bit(packed, j))
    {
      if ByteBit(packed[i / 8], i % 8) {
        have := have[i := true];
      }
      i := i + 1;
    }
  }
}

module Disks {
  import opened Common
  import opened MemPieces
  import opened Bitmaps
  import opened Torrents

  ghost predicate Good(t: Torrent, file: seq<byte>, i: nat)
    requires ValidTorrent(t)
  {
    i < t.count && |file| >= |t.truth| && Region(t, file, i) == Region(t, t.truth, i)
  }

  /** A write at an offset: the file grows if it must; writing nothing changes nothing. */
  function Overwritten(file: seq<byte>, off: nat, p: seq<byte>): (r: seq<byte>)
    ensures |r| >= |file|
  {
    if p == [] then file else Splice(Padded(file, off + |p|), p, off)
  }

  function Padded(file: seq<byte>, n: nat): (r: seq<byte>)
    ensures |r| == Max(|file|, n)
  {
    if |file| >= n then file else file + Zeros(n - |file|)
  }

  /** What truncating to `n` bytes leaves: cut, or padded with zeros. */
  function Truncated(file: seq<byte>, n: nat): (r: seq<byte>)
    ensures |r| == n
  {
    Padded(file, n)[..n]
  }

  /** Writing inside one piece's region leaves every other piece's bytes alone. */
  lemma WriteKeepsOtherRegions(t: Torrent, file: seq<byte>, i: nat, p: seq<byte>)
    requires ValidTorrent(t) && i < t.count && |file| >= |t.truth| && |p| <= Size(t, i)
    ensures forall j :: 0 <= j < t.count && j != i ==> Region(t, Overwritten(file, Off(t, i), p), j) == Region(t, file, j)
    ensures |p| == Size(t, i) ==> Region(t, Overwritten(file, Off(t, i), p), i) == p
  {
    RegionInFile(t, i);
    forall j | 0 <= j < t.count && j != i ensures Region(t, Overwritten(file, Off(t, i), p), j) == Region(t, file, j) {
      RegionInFile(t, j);
      if j < i {
        RegionsDisjoint(t, j, i);
        SliceBefore(file, Off(t, i), p, Off(t, j), Size(t, j));
      } else {
        RegionsDisjoint(t, i, j);
        SliceAfter(file, Off(t, i), p, Off(t, j), Size(t, j));
      }
    }
  }

  lemma SliceBefore(file: seq<byte>, off: nat, p: seq<byte>, o: nat, n: nat)
    requires off + |p| <= |file| && o + n <= off
    ensures Overwritten(file, off, p)[o..o + n] == file[o..o + n]
  {
    var r := Overwritten(file, off, p);
    assert |r| == |file|;
    forall k | o <= k < o + n ensures r[k] == file[k] {
    }
    assert r[o..o + n] == file[o..o + n];
  }

  lemma SliceAfter(file: seq<byte>, off: nat, p: seq<byte>, o: nat, n: nat)
    requires off + |p| <= o && o + n <= |file|
    ensures Overwritten(file, off, p)[o..o + n] == file[o..o + n]
  {
    var r := Overwritten(file, off, p);
    assert |r| == |file|;
    forall k | o <= k < o + n ensures r[k] == file[k] {
    }
    assert r[o..o + n] == file[o..o + n];
  }

  // ---------------------------------------------------------------- crashes

  /**
   Where the holder of the disk lock is: writing `data` for piece `i`, with the bytes at `put` in the
   file so far, or with a bitmap still to be saved.
   */
  datatype Phase = Idle | Writing(i: nat, data: seq<byte>, put: set<nat>) | Saving

  /**
   `file` and `saved` outlive the process; the rest does not. `attached`: the torrent is in disk mode and the
   bitmap has been loaded, which may happen while it is already streaming. `ram` holds the pieces in RAM,
   partly filled ones too.
   */
  datatype State = State(file: seq<byte>, saved: Option<seq<byte>>, up: bool, attached: bool, have: seq<bool>,
                         phase: Phase, ram: map<nat, Mem>)

  datatype Step =
    | Arrive(i: nat, m: Mem)     // the client has written some, or verified all, of the piece in RAM
    | EvictRam(i: nat)           // only complete pieces are evicted
    | Hydrate(i: nat, now: nat)  // a read asks for the piece: it is loaded from disk unless it has a buffer
    | Start(i: nat)              // begin persisting a snapshot of the resident piece
    | Put(k: nat)                // one byte of the data write reaches the file, in any order
    | Abort                      // the data write fails
    | Finish                     // the data write returns: every byte was written
    | Save(packed: seq<byte>)    // the bitmap is replaced
    | SaveFails
    | Clear(i: nat)              // MarkNotComplete
    | Crash
    | Restart
    | Attach                     // disk mode is switched on and the bitmap loaded

  /** The bytes persisting would write: those of a complete resident piece. */
  function SnapshotOf(ram: map<nat, Mem>, i: nat): Option<seq<byte>> {
    if i in ram && IsComplete(ram[i]) then ram[i].data else None
  }

  ghost predicate Enabled(t: Torrent, s: State, step: Step)
    requires ValidTorrent(t)
  {
    match step
    case Arrive(i, m) => s.up && i < t.count && Faithful(m, Region(t, t.truth, i))
    case EvictRam(i) => s.up && SnapshotOf(s.ram, i).Some?
    case Hydrate(i, now) => s.up && i < |s.have| && s.have[i]
    case Start(i) => s.up && s.attached && s.phase.Idle? && i < t.count && SnapshotOf(s.ram, i).Some?
    case Put(k) => s.up && s.phase.Writing? && k < |s.phase.data|
    case Abort => s.up && s.phase.Writing?
    case Finish => s.up && s.phase.Writing? && forall k :: 0 <= k < |s.phase.data| ==> k in s.phase.put
    case Save(packed) => s.up && s.phase.Saving? && Packs(packed, s.have)
    case SaveFails => s.up && s.phase.Saving?
    case Clear(i) => s.up && s.phase.Idle? && i < |s.have| && s.have[i]
    case Crash => s.up
    case Restart => !s.up
    case Attach => s.up && !s.attached
  }

  function Next(t: Torrent, s: State, step: Step): State
    requires ValidTorrent(t)
  {
    match step
    case Arrive(i, m) => s.(ram := s.ram[i := m])
    case EvictRam(i) => s.(ram := s.ram - {i})
    case Hydrate(i, now) => if i < t.count && |s.file| >= |t.truth| then s.(ram := s.ram[i := Reloaded(t, s.file, s.ram, i, now)]) else s
    case Start(i) =>
      if SnapshotOf(s.ram, i).Some? then s.(phase := Writing(i, SnapshotOf(s.ram, i).value, {})) else s
    case Put(k) =>
      if s.phase.Writing? && k < |s.phase.data| then
        s.(file := Overwritten(s.file, Off(t, s.phase.i) + k, [s.phase.data[k]]), phase := s.phase.(put := s.phase.put + {k}))
      else s
    case Abort => s.(phase := Idle)
    case Finish =>
      if s.phase.Writing? && s.phase.i < |s.have| then s.(have := s.have[s.phase.i := true], phase := Saving) else s
    case Save(packed) => s.(saved := Some(packed), phase := Idle)
    case SaveFails => s.(phase := Idle)
    case Clear(i) =>
      if i < |s.have| then s.(have := s.have[i := false], phase := Saving, ram := s.ram - {i}) else s
    case Crash => Down(s.file, s.saved)
    case Restart => s.(up := true)
    case Attach =>
      s.(attached := true, file := Truncated(s.file, |t.truth|), have := Unpack(if s.saved.Some? then s.saved.value else [], t.count))
  }

  /** The resident piece, or a new one, with its region of the file loaded into it. */
  function Reloaded(t: Torrent, file: seq<byte>, ram: map<nat, Mem>, i: nat, now: nat): Mem
    requires ValidTorrent(t) && i < t.count && |file| >= |t.truth|
  {
    Loaded(if i in ram then ram[i] else Fresh(|Region(t, file, i)|, now), Region(t, file, i), now)
  }

  ghost predicate IsRun(t: Torrent, s: State, steps: seq<Step>)
    requires ValidTorrent(t)
    decreases |steps|
  {
    steps != [] ==> Enabled(t, s, steps[0]) && IsRun(t, Next(t, s, steps[0]), steps[1..])
  }

  function Run(t: Torrent, s: State, steps: seq<Step>): State
    requires ValidTorrent(t)
    decreases |steps|
  {
    if steps == [] then s else Run(t, Next(t, s, steps[0]), steps[1..])
  }

  /** These steps, from `s`, are a run and lead to `e`. */
  ghost predicate Leads(t: Torrent, s: State, steps: seq<Step>, e: State)
    requires ValidTorrent(t)
  {
    IsRun(t, s, steps) && Run(t, s, steps) == e
  }

  /** Before the first start: any data file, of any length, and no bitmap. */
  predicate Initial(s: State) { s == Down(s.file, None) }

  /** Between two lives of the process only the files are left. */
  function Down(file: seq<byte>, saved: Option<seq<byte>>): State { State(file, saved, false, false, [], Idle, map[]) }

  // ---------------------------------------------------------------- what every step keeps

  /** Every bit set anywhere names a region holding that piece's verified bytes. */
  ghost predicate BitsTrue(t: Torrent, s: State)
    requires ValidTorrent(t)
  {
    && (s.saved.Some? ==> forall i :: 0 <= i < t.count && Bit(s.saved.value, i) ==> Good(t, s.file, i))
    && (s.attached ==> |s.have| == t.count && forall i :: 0 <= i < t.count && s.have[i] ==> Good(t, s.file, i))
  }

  /** Every piece in RAM tells the truth. */
  ghost predicate RamTrue(t: Torrent, s: State)
    requires ValidTorrent(t)
  {
    forall i :: i in s.ram ==> i < t.count && Faithful(s.ram[i], Region(t, t.truth, i))
  }

  /** A write in progress is of the verified bytes, and those put so far are in the file. */
  ghost predicate WriteTrue(t: Torrent, s: State)
    requires ValidTorrent(t)
  {
    s.phase.Writing? ==>
      && s.phase.i < t.count && s.phase.data == Region(t, t.truth, s.phase.i)
      && forall k :: k in s.phase.put ==> k < |s.phase.data| && Off(t, s.phase.i) + k < |s.file| && s.file[Off(t, s.phase.i) + k] == s.phase.data[k]
  }

  ghost predicate Sound(t: Torrent, s: State)
    requires ValidTorrent(t)
  {
    && (s.attached || s.saved.Some? ==> |s.file| >= |t.truth|)
    && (!s.up ==> s == Down(s.file, s.saved)) && (!s.attached ==> s.have == [] && s.phase.Idle?)
    && BitsTrue(t, s) && RamTrue(t, s) && WriteTrue(t, s)
  }

  /** When every byte of the verified piece has been put, its region is good. */
  lemma AllPutIsGood(t: Torrent, s: State)
    requires ValidTorrent(t) && |s.file| >= |t.truth| && WriteTrue(t, s) && s.phase.Writing?
    requires forall k :: 0 <= k < |s.phase.data| ==> k in s.phase.put
    ensures Good(t, s.file, s.phase.i)
  {
    var i, r := s.phase.i, Region(t, s.file, s.phase.i);
    forall k | 0 <= k < |r| ensures r[k] == s.phase.data[k] {
      assert k in s.phase.put;
    }
  }

  /** Putting one true byte of a piece never spoils a good region, of that piece or another. */
  lemma TrueByteKeepsGood(t: Torrent, file: seq<byte>, i: nat, k: nat, j: nat)
    requires ValidTorrent(t) && i < t.count && k < Size(t, i) && Good(t, file, j)
    ensures Good(t, Overwritten(file, Off(t, i) + k, [Region(t, t.truth, i)[k]]), j)
  {
    RegionInFile(t, i);
    RegionInFile(t, j);
    var b := Region(t, t.truth, i)[k];
    var file' := Overwritten(file, Off(t, i) + k, [b]);
    assert b == t.truth[Off(t, i) + k];
    var r, r', w := Region(t, file, j), Region(t, file', j), Region(t, t.truth, j);
    forall x | 0 <= x < |r'| ensures r'[x] == w[x] {
      assert r[x] == w[x];
      assert r'[x] == if Off(t, j) + x == Off(t, i) + k then b else r[x];
    }
  }

  lemma PutKeepsWrite(t: Torrent, s: State, k: nat)
    requires ValidTorrent(t) && WriteTrue(t, s) && s.phase.Writing? && k < |s.phase.data| && |s.file| >= |t.truth|
    ensures WriteTrue(t, Next(t, s, Put(k)))
  {
    RegionInFile(t, s.phase.i);
    var s', off := Next(t, s, Put(k)), Off(t, s.phase.i);
    assert s'.file[off + k] == s.phase.data[k];
    forall x | x in s.phase.put && x != k ensures s'.file[off + x] == s.file[off + x] {
    }
  }

  lemma PutKeepsSound(t: Torrent, s: State, k: nat)
    requires ValidTorrent(t) && Sound(t, s) && Enabled(t, s, Put(k))
    ensures Sound(t, Next(t, s, Put(k)))
  {
    var s' := Next(t, s, Put(k));
    forall j: nat | Good(t, s.file, j) ensures Good(t, s'.file, j) {
      TrueByteKeepsGood(t, s.file, s.phase.i, k, j);
    }
    PutKeepsWrite(t, s, k);
  }

  lemma FinishKeepsSound(t: Torrent, s: State)
    requires ValidTorrent(t) && Sound(t, s) && Enabled(t, s, Finish)
    ensures Sound(t, Next(t, s, Finish))
  {
    AllPutIsGood(t, s);
  }

  /**
   Reading back a good region leaves a piece that tells the truth, and the whole of it unless the piece was
   partly filled already.
   */
  lemma ReloadIsTrue(t: Torrent, file: seq<byte>, ram: map<nat, Mem>, i: nat, now: nat)
    requires ValidTorrent(t) && Good(t, file, i) && (i in ram ==> Faithful(ram[i], Region(t, t.truth, i)))
    ensures var m := Reloaded(t, file, ram, i, now);
            && Faithful(m, Region(t, t.truth, i))
            && (IsComplete(m) <==> !(i in ram && PartlyFilled(ram[i])))
            && (IsComplete(m) ==> m.data == Some(Region(t, t.truth, i)))
            && (!IsComplete(m) ==> m == ram[i])
  {
  }

  lemma HydrateKeepsSound(t: Torrent, s: State, i: nat, now: nat)
    requires ValidTorrent(t) && Sound(t, s) && Enabled(t, s, Hydrate(i, now))
    ensures Sound(t, Next(t, s, Hydrate(i, now)))
  {
    ReloadIsTrue(t, s.file, s.ram, i, now);
  }

  lemma TruncationKeepsGood(t: Torrent, file: seq<byte>, i: nat)
    requires ValidTorrent(t) && Good(t, file, i)
    ensures Good(t, Truncated(file, |t.truth|), i)
  {
    RegionInFile(t, i);
    assert Region(t, Truncated(file, |t.truth|), i) == Region(t, file, i);
  }

  lemma AttachKeepsSound(t: Torrent, s: State)
    requires ValidTorrent(t) && Sound(t, s) && Enabled(t, s, Attach)
    ensures Sound(t, Next(t, s, Attach))
  {
    forall i: nat | Good(t, s.file, i) ensures Good(t, Next(t, s, Attach).file, i) {
      TruncationKeepsGood(t, s.file, i);
    }
  }

  lemma StartKeepsSound(t: Torrent, s: State, i: nat)
    requires ValidTorrent(t) && Sound(t, s) && Enabled(t, s, Start(i))
    ensures Sound(t, Next(t, s, Start(i)))
  {
    assert Faithful(s.ram[i], Region(t, t.truth, i));
  }

  /** Every step keeps all bits, all resident pieces and any write in progress true. */
  lemma NextKeepsSound(t: Torrent, s: State, step: Step)
    requires ValidTorrent(t) && Sound(t, s) && Enabled(t, s, step)
    ensures Sound(t, Next(t, s, step))
  {
    match step
    case Put(k) => PutKeepsSound(t, s, k);
    case Finish => FinishKeepsSound(t, s);
    case Hydrate(i, now) => HydrateKeepsSound(t, s, i, now);
    case Start(i) => StartKeepsSound(t, s, i);
    case Attach => AttachKeepsSound(t, s);
    case _ =>
  }

  lemma {:induction false} RunKeepsSound(t: Torrent, s: State, steps: seq<Step>)
    requires ValidTorrent(t) && Sound(t, s) && IsRun(t, s, steps)
    ensures Sound(t, Run(t, s, steps))
    decreases |steps|
  {
    if steps != [] {
      NextKeepsSound(t, s, steps[0]);
      RunKeepsSound(t, Next(t, s, steps[0]), steps[1..]);
    }
  }

  /**
   Crash consistency: at every point of every run, whatever writes were torn and whatever saves failed,
   a bit in the saved bitmap names a region holding that piece's verified bytes, and so does a bit in
   memory; and every piece in RAM, downloaded or read back, tells the truth.
   */
  lemma {:induction false} SavedBitsAreTrue(t: Torrent, s: State, steps: seq<Step>, i: nat)
    requires ValidTorrent(t) && Initial(s) && IsRun(t, s, steps) && i < t.count
    ensures var e := Run(t, s, steps);
            && (e.saved.Some? && Bit(e.saved.value, i) ==> Good(t, e.file, i))
            && (i < |e.have| && e.have[i] ==> Good(t, e.file, i))
            && (i in e.ram ==> Faithful(e.ram[i], Region(t, t.truth, i)))
  {
    RunKeepsSound(t, s, steps);
  }

  /** The piece is recorded on disk, and in memory if the disk is attached. */
  predicate Durable(s: State, i: nat) {
    s.saved.Some? && Bit(s.saved.value, i) && (s.attached ==> i < |s.have| && s.have[i])
  }

  /** A buffer, but not the whole piece. */
  predicate PartlyFilled(m: Mem) { m.data.Some? && !m.complete }

  /** What Piece.Completion answers: resident and complete, or persisted. */
  predicate ReportedComplete(s: State, i: nat) {
    SnapshotOf(s.ram, i).Some? || (i < |s.have| && s.have[i])
  }

  lemma NextKeepsDurable(t: Torrent, s: State, step: Step, i: nat)
    requires ValidTorrent(t) && Sound(t, s) && Enabled(t, s, step) && i < t.count
    requires Durable(s, i) && step != Clear(i)
    ensures Durable(Next(t, s, step), i)
  {
  }

  lemma {:induction false} RunKeepsDurable(t: Torrent, s: State, steps: seq<Step>, i: nat)
    requires ValidTorrent(t) && Sound(t, s) && IsRun(t, s, steps) && i < t.count
    requires Durable(s, i) && Clear(i) !in steps
    ensures Durable(Run(t, s, steps), i)
    decreases |steps|
  {
    if steps != [] {
      NextKeepsDurable(t, s, steps[0], i);
      NextKeepsSound(t, s, steps[0]);
      RunKeepsDurable(t, Next(t, s, steps[0]), steps[1..], i);
    }
  }

  /**
   A persisted piece survives evictions, crashes, restarts and other pieces' failures until it is
   invalidated: whenever the disk is attached it is reported complete, and a read leaves it resident with
   exactly its verified bytes if and only if it was not resident partly filled.
   */
  lemma {:induction false} PersistedSurvivesIff(t: Torrent, s: State, steps: seq<Step>, i: nat, now: nat)
    requires ValidTorrent(t) && Sound(t, s) && IsRun(t, s, steps) && i < t.count
    requires Durable(s, i) && Clear(i) !in steps
    ensures var e := Run(t, s, steps);
            e.attached ==>
              && ReportedComplete(e, i) && (e.up ==> Enabled(t, e, Hydrate(i, now)))
              && (SnapshotOf(Next(t, e, Hydrate(i, now)).ram, i) == Some(Region(t, t.truth, i)) <==> !(i in e.ram && PartlyFilled(e.ram[i])))
  {
    RunKeepsSound(t, s, steps);
    RunKeepsDurable(t, s, steps, i);
    var e := Run(t, s, steps);
    if e.attached {
      ReloadIsTrue(t, e.file, e.ram, i, now);
    }
  }

  /** Reported complete, so nobody fetches it; partly filled, so nothing reloads or evicts it. */
  predicate Stuck(s: State, i: nat) {
    s.up && i < |s.have| && s.have[i] && i in s.ram && PartlyFilled(s.ram[i])
  }

  lemma StuckStep(t: Torrent, s: State, step: Step, i: nat)
    requires ValidTorrent(t) && Enabled(t, s, step) && Stuck(s, i) && s.attached
    requires step != Clear(i) && step != Crash && !(step.Arrive? && step.i == i)
    ensures var s' := Next(t, s, step); Stuck(s', i) && s'.attached && s'.ram[i] == s.ram[i] && ReportedComplete(s', i)
  {
  }

  /** Until the client writes it although it is reported complete, it is invalidated or the process ends, it stays as it is. */
  lemma {:induction false} StuckStays(t: Torrent, s: State, steps: seq<Step>, i: nat)
    requires ValidTorrent(t) && IsRun(t, s, steps) && Stuck(s, i) && s.attached
    requires forall x :: x in steps ==> x != Clear(i) && x != Crash && !(x.Arrive? && x.i == i)
    ensures var e := Run(t, s, steps); Stuck(e, i) && e.ram[i] == s.ram[i] && ReportedComplete(e, i)
    decreases |steps|
  {
    if steps != [] {
      assert steps[0] in steps;
      StuckStep(t, s, steps[0], i);
      StuckStays(t, Next(t, s, steps[0]), steps[1..], i);
    }
  }

  /** A finished write becomes durable exactly when its bitmap save succeeds. */
  lemma DurableIffSaved(t: Torrent, s: State, packed: seq<byte>, i: nat)
    requires ValidTorrent(t) && Sound(t, s) && i < t.count && s.attached && s.phase.Saving? && s.have[i]
    requires Packs(packed, s.have)
    ensures Durable(Next(t, s, Save(packed)), i)
    ensures Durable(Next(t, s, SaveFails), i) <==> s.saved.Some? && Bit(s.saved.value, i)
    ensures ReportedComplete(Reopened(t, Next(t, s, SaveFails)), i) <==> s.saved.Some? && Bit(s.saved.value, i)
  {
  }

  /** And an invalidated piece stays invalidated exactly when the save succeeds, or it was never saved. */
  lemma ClearedIffSaved(t: Torrent, s: State, packed: seq<byte>, i: nat)
    requires ValidTorrent(t) && Sound(t, s) && i < t.count && s.attached && s.phase.Saving? && !s.have[i]
    requires Packs(packed, s.have)
    ensures !ReportedComplete(Reopened(t, Next(t, s, Save(packed))), i)
    ensures ReportedComplete(Reopened(t, Next(t, s, SaveFails)), i) <==> s.saved.Some? && Bit(s.saved.value, i)
  {
  }

  /** The process ends, starts again and attaches the disk. */
  function Reopened(t: Torrent, s: State): State
    requires ValidTorrent(t)
  {
    Next(t, Next(t, Next(t, s, Crash), Restart), Attach)
  }

  // ---------------------------------------------------------------- a call is a run

  /** What is left of a WritePiece call when `k` bytes are in the file. */
  function Rest(k: nat, written: nat, len: nat, packed: Option<seq<byte>>): seq<Step>
    decreases written - k
  {
    if k < written then [Put(k)] + Rest(k + 1, written, len, packed)
    else if written < len then [Abort]
    else [Finish, if packed.Some? then Save(packed.value) else SaveFails]
  }

  /** A whole call: how much of the data was written before an error, and the bitmap if it was saved. */
  function CallSteps(i: nat, written: nat, len: nat, packed: Option<seq<byte>>): seq<Step> {
    [Start(i)] + Rest(0, written, len, packed)
  }

  /** What the call leaves behind. */
  function AfterWrite(t: Torrent, s: State, i: nat, data: seq<byte>, written: nat, packed: Option<seq<byte>>): State
    requires written <= |data| && i < |s.have|
  {
    var s' := s.(file := Overwritten(s.file, Off(t, i), data[..written]), phase := Idle);
    if written < |data| then s'
    else s'.(have := s.have[i := true], saved := if packed.Some? then packed else s.saved)
  }

  lemma OneMoreByte(file: seq<byte>, off: nat, data: seq<byte>, k: nat)
    requires k < |data| && off + |data| <= |file|
    ensures Overwritten(Overwritten(file, off, data[..k]), off + k, [data[k]]) == Overwritten(file, off, data[..k + 1])
  {
    assert data[..k + 1] == data[..k] + [data[k]];
  }

  function Below(k: nat): (r: set<nat>)
    ensures forall x: nat :: x in r <==> x < k
  {
    if k == 0 then {} else Below(k - 1) + {k - 1}
  }

  lemma BelowMore(k: nat)
    ensures Below(k) + {k} == Below(k + 1)
  {
  }

  /** The state when `k` bytes are in the file. */
  function Midway(t: Torrent, s: State, i: nat, data: seq<byte>, k: nat): State
    requires k <= |data|
  {
    s.(file := Overwritten(s.file, Off(t, i), data[..k]), phase := Writing(i, data, Below(k)))
  }

  lemma PutStep(t: Torrent, s: State, i: nat, data: seq<byte>, k: nat)
    requires ValidTorrent(t) && s.up && k < |data| && Off(t, i) + |data| <= |s.file|
    ensures Enabled(t, Midway(t, s, i, data, k), Put(k))
    ensures Next(t, Midway(t, s, i, data, k), Put(k)) == Midway(t, s, i, data, k + 1)
  {
    OneMoreByte(s.file, Off(t, i), data, k);
    BelowMore(k);
  }

  lemma EndSteps(t: Torrent, s: State, i: nat, data: seq<byte>, written: nat, packed: Option<seq<byte>>)
    requires ValidTorrent(t) && s.up && i < |s.have| && written <= |data|
    requires packed.Some? ==> Packs(packed.value, s.have[i := true])
    ensures Leads(t, Midway(t, s, i, data, written), Rest(written, written, |data|, packed), AfterWrite(t, s, i, data, written, packed))
  {
    var m, rest := Midway(t, s, i, data, written), Rest(written, written, |data|, packed);
    var m1 := Next(t, m, rest[0]);
    assert Enabled(t, m, rest[0]);
    if written < |data| {
      assert rest[1..] == [] && Run(t, m1, []) == m1 && IsRun(t, m1, []);
    } else {
      var m2 := Next(t, m1, rest[1]);
      assert rest[1..] == [rest[1]] && rest[1..][1..] == [];
      assert Enabled(t, m1, rest[1]) && IsRun(t, m2, []);
      assert Run(t, m, rest) == Run(t, m1, rest[1..]) == Run(t, m2, []) == m2;
    }
  }

  lemma {:induction false} RunFrom(t: Torrent, s: State, step: Step, rest: seq<Step>, e: State)
    requires ValidTorrent(t) && Enabled(t, s, step) && Leads(t, Next(t, s, step), rest, e)
    ensures Leads(t, s, [step] + rest, e)
  {
    assert ([step] + rest)[1..] == rest;
  }

  lemma {:induction false} RestIsRun(t: Torrent, s: State, i: nat, data: seq<byte>, k: nat, written: nat, packed: Option<seq<byte>>)
    requires ValidTorrent(t) && s.up && i < |s.have| && k <= written <= |data| && Off(t, i) + |data| <= |s.file|
    requires packed.Some? ==> Packs(packed.value, s.have[i := true])
    ensures Leads(t, Midway(t, s, i, data, k), Rest(k, written, |data|, packed), AfterWrite(t, s, i, data, written, packed))
    decreases written - k
  {
    if k == written {
      EndSteps(t, s, i, data, written, packed);
    } else {
      PutStep(t, s, i, data, k);
      RestIsRun(t, s, i, data, k + 1, written, packed);
      RunFrom(t, Midway(t, s, i, data, k), Put(k), Rest(k + 1, written, |data|, packed), AfterWrite(t, s, i, data, written, packed));
    }
  }

  /** What a WritePiece call does, whatever its index and data. */
  ghost predicate Writes(t: Torrent, s: State, s': State, idx: int, data: seq<byte>, written: nat, saved: bool)
    requires written <= |data|
  {
    var err := idx < 0 || written < |data|;
    && s'.file == (if idx < 0 then s.file else Overwritten(s.file, Off(t, idx), data[..written]))
    && s'.have == (if !err && idx < |s.have| then s.have[idx := true] else s.have)
    && (if !err && saved then s'.saved.Some? && Packs(s'.saved.value, s'.have) else s'.saved == s.saved)
    && s'.phase == s.phase && s'.ram == s.ram && s'.up == s.up && s'.attached == s.attached
  }

  /** Called with a snapshot of a resident piece it is one run of the machine, whether it fails part way or not. */
  lemma WriteCallIsRun(t: Torrent, s: State, s': State, i: nat, data: seq<byte>, written: nat, saved: bool)
    requires ValidTorrent(t) && s.up && s.attached && s.phase.Idle? && i < t.count == |s.have| && |s.file| >= |t.truth|
    requires SnapshotOf(s.ram, i) == Some(data) && |data| == Size(t, i) && written <= |data|
    requires Writes(t, s, s', i, data, written, saved)
    ensures Leads(t, s, CallSteps(i, written, |data|, if saved && written == |data| then s'.saved else None), s')
  {
    RegionInFile(t, i);
    var packed := if saved && written == |data| then s'.saved else None;
    RestIsRun(t, s, i, data, 0, written, packed);
    assert data[..0] == [];
    assert Next(t, s, Start(i)) == Midway(t, s, i, data, 0);
    assert AfterWrite(t, s, i, data, written, packed) == s';
    RunFrom(t, s, Start(i), Rest(0, written, |data|, packed), s');
  }

  /** So is clearing a piece that is on disk. */
  lemma ClearCallIsRun(t: Torrent, s: State, i: nat, packed: Option<seq<byte>>)
    requires ValidTorrent(t) && s.up && s.phase.Idle? && i < |s.have| && s.have[i]
    requires packed.Some? ==> Packs(packed.value, s.have[i := false])
    ensures Leads(t, s, [Clear(i), if packed.Some? then Save(packed.value) else SaveFails],
                  s.(have := s.have[i := false], ram := s.ram - {i}, saved := if packed.Some? then packed else s.saved))
  {
    var last := if packed.Some? then Save(packed.value) else SaveFails;
    var s1 := Next(t, s, Clear(i));
    assert Enabled(t, s1, last) && Leads(t, Next(t, s1, last), [], Next(t, s1, last));
    RunFrom(t, s1, last, [], Next(t, s1, last));
    assert [last] + [] == [last] && [Clear(i)] + [last] == [Clear(i), last];
    RunFrom(t, s, Clear(i), [last], Next(t, s1, last));
  }

  // ---------------------------------------------------------------- a reload that is blocked

  lemma {:induction false} LeadsOn(t: Torrent, s: State, a: seq<Step>, m: State, b: seq<Step>, e: State)
    requires ValidTorrent(t) && Leads(t, s, a, m) && Leads(t, m, b, e)
    ensures Leads(t, s, a + b, e)
    decreases |a|
  {
    if a == [] {
      assert a + b == b;
    } else {
      LeadsOn(t, Next(t, s, a[0]), a[1..], m, b, e);
      assert a + b == [a[0]] + (a[1..] + b);
      RunFrom(t, s, a[0], a[1..] + b, e);
    }
  }

  function WholePiece(t: Torrent): Mem
    requires ValidTorrent(t) && t.count == 1
  {
    Loaded(Fresh(|Region(t, t.truth, 0)|, 0), Region(t, t.truth, 0), 0)
  }

  /** A new piece object with its first block written. */
  function OneBlock(t: Torrent): Mem
    requires ValidTorrent(t) && t.count == 1 && |Region(t, t.truth, 0)| > BLOCK
  {
    Written(Fresh(|Region(t, t.truth, 0)|, 0), Region(t, t.truth, 0)[0..BLOCK], 0, 0)
  }

  lemma OneBlockLacksTheNext(t: Torrent)
    requires ValidTorrent(t) && t.count == 1 && |Region(t, t.truth, 0)| > BLOCK
    ensures PartlyFilled(OneBlock(t)) && Faithful(OneBlock(t), Region(t, t.truth, 0)) && !HasRange(OneBlock(t), BLOCK, 1)
  {
    var size := |Region(t, t.truth, 0)|;
    WholeBlocksKeepFaith(Fresh(size, 0), Region(t, t.truth, 0), 0, BLOCK, 0);
    assert Region(t, t.truth, 0)[0..BLOCK][..BLOCK] == Region(t, t.truth, 0)[0..BLOCK];
    assert Blocks(size) > 1 && !OneBlock(t).written[1];
  }

  /** A torrent of one piece is downloaded in disk mode and persisted. */
  function FirstLife(t: Torrent): seq<Step>
    requires ValidTorrent(t) && t.count == 1
  {
    [Restart] + ([Attach] + ([Arrive(0, WholePiece(t))] + CallSteps(0, |Region(t, t.truth, 0)|, |Region(t, t.truth, 0)|, Some([1]))))
  }

  /** The next process streams it, has one block of it, and is then switched to disk mode. */
  function SecondLife(t: Torrent): seq<Step>
    requires ValidTorrent(t) && t.count == 1 && |Region(t, t.truth, 0)| > BLOCK
  {
    [Crash] + ([Restart] + ([Arrive(0, OneBlock(t))] + ([Attach] + [])))
  }

  lemma FirstLifeLeads(t: Torrent, file: seq<byte>) returns (e: State)
    requires ValidTorrent(t) && t.count == 1
    ensures Leads(t, Down(file, None), FirstLife(t), e)
    ensures e.up && e.saved == Some([1]) && |e.file| >= |t.truth|
  {
    var s0, data := Down(file, None), Region(t, t.truth, 0);
    var s1 := Next(t, s0, Restart);
    var s2 := Next(t, s1, Attach);
    var s3 := Next(t, s2, Arrive(0, WholePiece(t)));
    var call := CallSteps(0, |data|, |data|, Some([1]));
    var packed: seq<byte> := [1];
    OneBit(packed);
    e := AfterWrite(t, s3, 0, data, |data|, Some(packed));
    WriteCallIsRun(t, s3, e, 0, data, |data|, true);
    RunFrom(t, s2, Arrive(0, WholePiece(t)), call, e);
    RunFrom(t, s1, Attach, [Arrive(0, WholePiece(t))] + call, e);
    RunFrom(t, s0, Restart, [Attach] + ([Arrive(0, WholePiece(t))] + call), e);
  }

  lemma OneBit(packed: seq<byte>)
    requires packed == [1]
    ensures Packs(packed, [true])
  {
    MaskTable(0);
  }

  lemma SecondLifeLeads(t: Torrent, s: State)
    requires ValidTorrent(t) && t.count == 1 && |Region(t, t.truth, 0)| > BLOCK && s.up && s.saved == Some([1])
    ensures var e := Next(t, Down(s.file, s.saved).(up := true, ram := map[0 := OneBlock(t)]), Attach);
            Leads(t, s, SecondLife(t), e) && Stuck(e, 0) && Durable(e, 0) && ReportedComplete(e, 0)
  {
    var s1 := Next(t, s, Crash);
    var s2 := Next(t, s1, Restart);
    var s3 := Next(t, s2, Arrive(0, OneBlock(t)));
    var e := Next(t, s3, Attach);
    OneBlockLacksTheNext(t);
    OneBit(s.saved.value);
    RunFrom(t, s3, Attach, [], e);
    RunFrom(t, s2, Arrive(0, OneBlock(t)), [Attach] + [], e);
    RunFrom(t, s1, Restart, [Arrive(0, OneBlock(t))] + ([Attach] + []), e);
    RunFrom(t, s, Crash, [Restart] + ([Arrive(0, OneBlock(t))] + ([Attach] + [])), e);
  }

  /** From nothing, a run after which a verified piece on disk is reported complete and cannot be read back. */
  lemma BlockedReloadRun(t: Torrent, file: seq<byte>) returns (e: State)
    requires ValidTorrent(t) && t.count == 1 && |Region(t, t.truth, 0)| > BLOCK
    ensures Initial(Down(file, None)) && Leads(t, Down(file, None), FirstLife(t) + SecondLife(t), e)
    ensures Stuck(e, 0) && ReportedComplete(e, 0) && !HasRange(Next(t, e, Hydrate(0, 0)).ram[0], BLOCK, 1)
  {
    var m := FirstLifeLeads(t, file);
    SecondLifeLeads(t, m);
    e := Next(t, Down(m.file, m.saved).(up := true, ram := map[0 := OneBlock(t)]), Attach);
    LeadsOn(t, Down(file, None), FirstLife(t), m, SecondLife(t), e);
    OneBlockLacksTheNext(t);
  }

  // ---------------------------------------------------------------- the object

  class DiskBacking {
    const t: Torrent
    var file: seq<byte>
    var bitmapFile: Option<seq<byte>>
    var have: seq<bool>

    ghost predicate Valid()
      reads this
    {
      ValidTorrent(t) && |file| >= |t.truth| && |have| == t.count
    }

    /** The machine's state between calls, with these pieces in RAM. */
    ghost function Whole(ram: map<nat, Mem>): State
      reads this
    {
      State(file, bitmapFile, true, true, have, Idle, ram)
    }

    /** Opens over whatever an earlier run left behind, while `ram` is in RAM. */
    constructor (t: Torrent, file: seq<byte>, bitmapFile: Option<seq<byte>>, ghost ram: map<nat, Mem>)
      requires ValidTorrent(t)
      ensures Valid() && this.t == t
      ensures Whole(ram) == Next(t, Down(file, bitmapFile).(up := true, ram := ram), Attach)
    {
      this.t, this.file, this.bitmapFile := t, Truncated(file, |t.truth|), bitmapFile;
      var loaded := Load(if bitmapFile.Some? then bitmapFile.value else [], t.count);
      have := loaded;
    }

    method SaveBitmapLocked(ok: bool)
      modifies this`bitmapFile
      ensures if ok then bitmapFile.Some? && Packs(bitmapFile.value, have) else bitmapFile == old(bitmapFile)
    {
      var packed := Pack(have);
      if ok {
        bitmapFile := Some(packed);
      }
    }

    /**
     `written` is how much of the data the file took before an error; `saved` whether the bitmap was
     replaced. Any index and any data are taken; a negative offset is an error.
     */
    method WritePiece(idx: int, data: seq<byte>, written: nat, saved: bool, ghost ram: map<nat, Mem>) returns (err: bool)
      requires Valid() && written <= |data|
      modifies this
      ensures Valid() && err == (idx < 0 || written < |data|)
      ensures Writes(t, old(Whole(ram)), Whole(ram), idx, data, written, saved)
    {
      if idx < 0 {
        return true;
      }
      file := Overwritten(file, idx * t.pieceLen, data[..written]);
      if written < |data| {
        return true;
      }
      if idx < |have| {
        have := have[idx := true];
      }
      SaveBitmapLocked(saved);
      err := false;
    }

    method ReadPiece(idx: int) returns (r: Option<seq<byte>>)
      requires Valid()
      ensures r.Some? <==> 0 <= idx < t.count && have[idx]
      ensures r.Some? ==> r.value == Region(t, file, idx)
    {
      if 0 <= idx < |have| && have[idx] {
        RegionInFile(t, idx);
        r := Some(file[Off(t, idx)..Off(t, idx) + Size(t, idx)]);
      } else {
        r := None;
      }
    }

    method Clear(idx: int, saved: bool)
      requires Valid()
      modifies this`have, this`bitmapFile
      ensures Valid() && have == if 0 <= idx < t.count then old(have)[idx := false] else old(have)
      ensures if saved && 0 <= idx < t.count && old(have)[idx] then bitmapFile.Some? && Packs(bitmapFile.value, have)
              else bitmapFile == old(bitmapFile)
    {
      if 0 <= idx < |have| && have[idx] {
        have := have[idx := false];
        SaveBitmapLocked(saved);
      }
    }
  }
}
