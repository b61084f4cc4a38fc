/**
 One piece held in RAM (storage/mempiece.go): its buffer, the map of 16 KiB blocks written so far,
 the bytes it has contributed to the cache ledger, and the channel that readers park on.

 `Mem` is the piece as a value and the functions on it say what one lock-held section does; class
 `MemPiece` is the object that is updated in place, each method proved against its function.
 */
module MemPieces {
  import opened Common

  const BLOCK := 16384

  /**
   `shut` holds the notify channels already closed and `notify` the one handed to the next waiter;
   `done` says whether the completion channel is closed.
   */
  datatype Mem = Mem(
    size: nat, data: Option<seq<byte>>, written: seq<bool>, complete: bool, accessed: nat,
    accounted: nat, notify: nat, shut: set<nat>, done: bool)

  function Blocks(size: nat): nat { (size + 16383) / BLOCK }

  function Zeros(n: nat): (z: seq<byte>) { seq(n, _ => 0) }

  function Fresh(size: nat, now: nat): Mem {
    Mem(size, None, seq(Blocks(size), _ => false), false, now, 0, 0, {}, false)
  }

  /** Closes the current notify channel and arms a fresh one. */
  function Wake(m: Mem): Mem {
    m.(notify := m.notify + 1, shut := m.shut + {m.notify})
  }

  function Released(m: Mem): Mem {
    Wake(m.(data := None, written := [], complete := false, accounted := 0))
  }

  function Marked(w: seq<bool>, first: int, last: int): (w': seq<bool>)
    ensures |w'| == |w|
  {
    seq(|w|, i requires 0 <= i < |w| => w[i] || first <= i <= last)
  }

  function Splice(buf: seq<byte>, p: seq<byte>, off: nat): (r: seq<byte>)
    requires off + |p| <= |buf|
    ensures |r| == |buf|
  {
    buf[..off] + p + buf[off + |p|..]
  }

  function Buffer(m: Mem): seq<byte> {
    if m.data.Some? then m.data.value else Zeros(m.size)
  }

  /** How many of `len` bytes at `off` a write can place. */
  function Landing(m: Mem, len: nat, off: nat): (n: nat)
    ensures n <= len
  {
    if off >= |Buffer(m)| then 0 else Min(len, |Buffer(m)| - off)
  }

  function Written(m: Mem, p: seq<byte>, off: nat, now: nat): Mem {
    var buf := Buffer(m);
    if off >= |buf| then m.(accessed := now, data := Some(buf))
    else
      var n := Landing(m, |p|, off);
      Wake(m.(accessed := now, data := Some(Splice(buf, p[..n], off)), accounted := m.accounted + n,
              written := Marked(m.written, off / BLOCK, GoDiv(off + n - 1, BLOCK))))
  }

  /** What landing all of `p` in the buffer does. */
  function WithBytes(m: Mem, p: seq<byte>, off: nat): Mem
    requires m.data.Some? && off + |p| <= |m.data.value|
  {
    Wake(m.(data := Some(Splice(m.data.value, p, off)), accounted := m.accounted + |p|,
            written := Marked(m.written, off / BLOCK, GoDiv(off + |p| - 1, BLOCK))))
  }

  /** The lock-held half of completion; the completion channel is closed afterwards by `DoneClosed`. */
  function Completed(m: Mem, now: nat): Mem {
    Wake(m.(complete := true, accessed := now,
            written := if m.data.Some? then Marked(m.written, 0, |m.written|) else m.written))
  }

  function DoneClosed(m: Mem): Mem { m.(done := true) }

  /** Installs bytes read back from disk, unless the piece already has a buffer. */
  function Loaded(m: Mem, src: seq<byte>, now: nat): Mem {
    if m.data.Some? then m
    else Wake(m.(data := Some(src), written := Marked(m.written, 0, |m.written|),
                 accounted := m.accounted + |src|, complete := true, accessed := now, done := true))
  }

  predicate IsComplete(m: Mem) { m.complete && m.data.Some? }

  predicate HasRange(m: Mem, off: nat, len: nat) {
    IsComplete(m) ||
    (m.data.Some? &&
     var last := GoDiv(off + len - 1, BLOCK);
     last < |m.written| && forall b :: off / BLOCK <= b <= last ==> m.written[b])
  }

  datatype ReadStatus = ReadOk | ReadEOF | ReadEvicted

  /** The bytes `len`-long read at `off` copies out, and the error it reports. */
  function ReadBytes(m: Mem, len: nat, off: nat): (r: (seq<byte>, ReadStatus)) {
    if m.data.None? then ([], ReadEvicted)
    else if off >= |m.data.value| then ([], ReadEOF)
    else
      var n := Min(len, |m.data.value| - off);
      (m.data.value[off..off + n], if n < len then ReadEOF else ReadOk)
  }

  // ---------------------------------------------------------------- what a set block bit promises

  /**
   The piece tells the truth about `truth`, the verified content of this piece: a marked block holds
   the true bytes, and a complete piece holds all of them.
   */
  ghost predicate Faithful(m: Mem, truth: seq<byte>) {
    && |truth| == m.size
    && (m.data.None? ==> !m.complete && forall b :: 0 <= b < |m.written| ==> !m.written[b])
    && (m.data.Some? ==>
          && |m.data.value| == m.size
          && (m.complete ==> m.data.value == truth)
          && forall i :: 0 <= i < m.size && i / BLOCK < |m.written| && m.written[i / BLOCK]
                         ==> m.data.value[i] == truth[i])
  }

  /** A range reported available reads back as exactly the true bytes. */
  lemma AvailableRangeIsTrue(m: Mem, truth: seq<byte>, off: nat, len: nat)
    requires Faithful(m, truth) && HasRange(m, off, len) && off + len <= m.size && len > 0
    ensures ReadBytes(m, len, off) == (truth[off..off + len], ReadOk)
  {
    forall i | off <= i < off + len
      ensures m.data.value[i] == truth[i]
    {
      if !m.complete {
        assert off / BLOCK <= i / BLOCK <= (off + len - 1) / BLOCK;
        assert m.written[i / BLOCK];
      }
    }
    assert m.data.value[off..off + len] == truth[off..off + len];
  }

  /**
   Chunks whose write never marks a block it does not fill: whole blocks, or blocks up to the end of
   the piece. An empty chunk marks nothing only on an interior block boundary or past the end.
   */
  predicate WholeBlocks(off: nat, len: nat, size: nat) {
    if len == 0 then off >= size || (off > 0 && off % BLOCK == 0)
    else off % BLOCK == 0 && (off + len == size || (off + len) % BLOCK == 0)
  }

  /** A byte outside a whole-block chunk is in no block the chunk marks. */
  lemma OutsideIsUnmarked(off: nat, len: nat, size: nat, i: nat)
    requires WholeBlocks(off, len, size) && off < size && off + len <= size && i < size && !(off <= i < off + len)
    ensures !(off / BLOCK <= i / BLOCK <= GoDiv(off + len - 1, BLOCK))
  {
    if len == 0 {
      assert GoDiv(off - 1, BLOCK) < off / BLOCK;
    } else if i < off {
      assert i / BLOCK < off / BLOCK;
    } else {
      assert i / BLOCK > (off + len - 1) / BLOCK;
    }
  }

  lemma MarkedByteIsTrue(m: Mem, truth: seq<byte>, off: nat, len: nat, now: nat, i: nat)
    requires Faithful(m, truth) && off + len <= |truth| && WholeBlocks(off, len, m.size) && off < m.size && i < m.size
    requires var w := Written(m, truth[off..off + len], off, now).written; i / BLOCK < |w| && w[i / BLOCK]
    ensures Written(m, truth[off..off + len], off, now).data.value[i] == truth[i]
  {
    var m', p := Written(m, truth[off..off + len], off, now), truth[off..off + len];
    assert p[..len] == p;
    if off <= i < off + len {
      assert m'.data.value[i] == p[i - off];
    } else {
      assert m'.data.value[i] == Buffer(m)[i];
      OutsideIsUnmarked(off, len, m.size, i);
      assert m.written[i / BLOCK];
    }
  }

  lemma MarkedBytesAreTrue(m: Mem, truth: seq<byte>, off: nat, len: nat, now: nat)
    requires Faithful(m, truth) && off + len <= |truth| && WholeBlocks(off, len, m.size) && off < m.size
    ensures var m' := Written(m, truth[off..off + len], off, now);
            forall i :: 0 <= i < m.size && i / BLOCK < |m'.written| && m'.written[i / BLOCK] ==> m'.data.value[i] == truth[i]
  {
    var m' := Written(m, truth[off..off + len], off, now);
    forall i | 0 <= i < m.size && i / BLOCK < |m'.written| && m'.written[i / BLOCK] ensures m'.data.value[i] == truth[i] {
      MarkedByteIsTrue(m, truth, off, len, now, i);
    }
  }

  lemma WholeBlocksKeepFaith(m: Mem, truth: seq<byte>, off: nat, len: nat, now: nat)
    requires Faithful(m, truth) && off + len <= |truth| && WholeBlocks(off, len, m.size)
    ensures Faithful(Written(m, truth[off..off + len], off, now), truth)
  {
    if off < m.size {
      MarkedBytesAreTrue(m, truth, off, len, now);
      if m.complete {
        TrueBytesStayTrue(m, truth, off, len, now);
      }
    }
  }

  lemma TrueBytesStayTrue(m: Mem, truth: seq<byte>, off: nat, len: nat, now: nat)
    requires Faithful(m, truth) && off + len <= |truth| && off < m.size && m.complete
    ensures Written(m, truth[off..off + len], off, now).data == Some(truth)
  {
    var p := truth[off..off + len];
    assert p[..len] == p && Splice(truth, p, off) == truth;
  }

  /** Writing the true bytes of [off, off+len) into a faithful piece leaves it faithful. */
  ghost predicate ChunkKeepsFaith(m: Mem, truth: seq<byte>, off: nat, len: nat, now: nat)
  {
    Faithful(m, truth) && off + len <= |truth| ==> Faithful(Written(m, truth[off..off + len], off, now), truth)
  }

  /** A piece of all ones, against which an unfilled (zero) byte shows. */
  lemma PartialBlockBreaksFaith(off: nat, len: nat, size: nat)
    requires off + len <= size && !WholeBlocks(off, len, size)
    ensures var truth := seq(size, _ => 1 as byte);
            Faithful(Fresh(size, 0), truth) &&
            !Faithful(Written(Fresh(size, 0), truth[off..off + len], off, 0), truth)
  {
    var truth := seq(size, _ => 1 as byte);
    var m' := Written(Fresh(size, 0), truth[off..off + len], off, 0);
    var p := truth[off..off + len];
    assert p[..len] == p;
    var i := if len == 0 then off
             else if off % BLOCK != 0 then off / BLOCK * BLOCK
             else off + len;
    assert m'.written[i / BLOCK];
    assert m'.data.value[i] == 0;
  }

  /**
   Which chunks keep every piece faithful: exactly the whole-block ones, whatever the piece's state.
   This is the alignment the block map silently depends on.
   */
  lemma ChunkKeepsFaithIff(off: nat, len: nat, size: nat)
    requires off + len <= size
    ensures (forall m: Mem, truth: seq<byte>, now: nat :: m.size == size ==> ChunkKeepsFaith(m, truth, off, len, now))
            <==> WholeBlocks(off, len, size)
  {
    if WholeBlocks(off, len, size) {
      forall m: Mem, truth: seq<byte>, now: nat | m.size == size
        ensures ChunkKeepsFaith(m, truth, off, len, now)
      {
        if Faithful(m, truth) {
          WholeBlocksKeepFaith(m, truth, off, len, now);
        }
      }
    } else {
      PartialBlockBreaksFaith(off, len, size);
      assert !ChunkKeepsFaith(Fresh(size, 0), seq(size, _ => 1 as byte), off, len, 0);
    }
  }

  /** Completion after verification, reload of verified bytes, and release all keep a piece faithful. */
  lemma OtherStepsKeepFaith(m: Mem, truth: seq<byte>, now: nat)
    requires Faithful(m, truth)
    ensures m.data == Some(truth) ==> Faithful(Completed(m, now), truth)
    ensures Faithful(Loaded(m, truth, now), truth)
    ensures Faithful(Released(m), truth)
    ensures Faithful(Fresh(m.size, now), truth)
  {
  }

  /** Writes, completion and reloads count as uses of a piece; giving it back does not. */
  lemma UsesAreStamped(m: Mem, p: seq<byte>, off: nat, src: seq<byte>, now: nat)
    ensures Written(m, p, off, now).accessed == now && Completed(m, now).accessed == now
    ensures Loaded(m, src, now).accessed == (if m.data.Some? then m.accessed else now) && Released(m).accessed == m.accessed
    ensures Fresh(m.size, now).accessed == now
  {
  }

  /** A piece marked complete while it was empty, and the chunk [o, o+n) of true bytes that then lands in it. */
  ghost predicate EmptyCompletionHarmless(m: Mem, truth: seq<byte>, o: nat, n: nat, now: nat) {
    Faithful(m, truth) && m.data.None? && o + n <= |truth| ==>
      Faithful(Written(Completed(m, now), truth[o..o + n], o, now), truth)
  }

  lemma WholeChunkIsHarmless(m: Mem, truth: seq<byte>, now: nat)
    ensures EmptyCompletionHarmless(m, truth, 0, |truth|, now)
  {
    if Faithful(m, truth) && m.data.None? {
      assert truth[0..|truth|] == truth && truth[..|truth|] == truth;
      assert |truth| > 0 ==> Splice(Zeros(m.size), truth, 0) == truth;
    }
  }

  /** A piece of all ones: a byte the chunk does not cover reads as zero, in a piece that says it is complete. */
  lemma SmallChunkIsNot(size: nat, o: nat, n: nat)
    requires o + n <= size && n < size
    ensures !EmptyCompletionHarmless(Fresh(size, 0), seq(size, _ => 1 as byte), o, n, 0)
  {
    var truth := seq(size, _ => 1 as byte);
    var m' := Written(Completed(Fresh(size, 0), 0), truth[o..o + n], o, 0);
    var i := if o > 0 then 0 else n;
    assert truth[o..o + n][..n] == truth[o..o + n];
    assert m'.complete && m'.data.value[i] == 0 && truth[i] == 1;
  }

  /**
   Completion is announced only for verified content; what it costs on an empty piece: the first chunk to
   land leaves the piece truthful, whatever the content, exactly when it is the whole piece.
   */
  lemma EmptyCompletionIff(size: nat, o: nat, n: nat)
    requires o + n <= size
    ensures (forall m: Mem, truth: seq<byte>, now: nat :: m.size == size ==> EmptyCompletionHarmless(m, truth, o, n, now))
            <==> n == size
  {
    if n == size {
      forall m: Mem, truth: seq<byte>, now: nat | m.size == size ensures EmptyCompletionHarmless(m, truth, o, n, now) {
        if |truth| == size {
          WholeChunkIsHarmless(m, truth, now);
        }
      }
    } else {
      SmallChunkIsNot(size, o, n);
    }
  }

  // ---------------------------------------------------------------- the object

  class MemPiece {
    const size: nat
    var data: array?<byte>
    var writtenBlocks: seq<bool>
    var complete: bool
    var accessed: nat
    var accounted: nat
    var notifyCh: nat
    var shutChs: set<nat>
    var done: bool

    ghost function View(): Mem
      reads this, data
    {
      Mem(size, if data == null then None else Some(data[..]), writtenBlocks, complete, accessed,
          accounted, notifyCh, shutChs, done)
    }

    constructor (size: nat, now: nat)
      ensures View() == Fresh(size, now)
    {
      this.size := size;
      data, complete, accessed, accounted := null, false, now, 0;
      writtenBlocks := seq(Blocks(size), _ => false);
      notifyCh, shutChs, done := 0, {}, false;
    }

    method ReleaseAndSize() returns (sz: nat)
      modifies this
      ensures sz == old(accounted) && View() == Released(old(View()))
    {
      sz := accounted;
      accounted, data, writtenBlocks, complete := 0, null, [], false;
      shutChs, notifyCh := shutChs + {notifyCh}, notifyCh + 1;
    }

    method WriteAt(p: seq<byte>, off: nat, now: nat) returns (n: nat, short: bool)
      modifies this, data
      ensures n == Landing(old(View()), |p|, off)
      ensures short <==> n < |p| || off >= |Buffer(old(View()))|
      ensures View() == Written(old(View()), p, off, now)
      ensures data == old(data) || fresh(data)
    {
      accessed := now;
      Allocate();
      if off >= data.Length {
        return 0, true;
      }
      n := Min(|p|, data.Length - off);
      short := n < |p|;
      Place(p[..n], off);
    }

    /** The bytes that fit go in, are accounted, mark their blocks and wake the waiters. */
    method Place(p: seq<byte>, off: nat)
      requires data != null && off + |p| <= data.Length
      modifies this, data
      ensures data == old(data) && View() == WithBytes(old(View()), p, off)
    {
      CopyIn(data, p, off);
      accounted := accounted + |p|;
      MarkBlocks(off / BLOCK, GoDiv(off + |p| - 1, BLOCK));
      shutChs, notifyCh := shutChs + {notifyCh}, notifyCh + 1;
    }

    /** The buffer is made on the first write. */
    method Allocate()
      modifies this`data
      ensures data != null && (data == old(data) || fresh(data))
      ensures View() == old(View()).(data := Some(Buffer(old(View()))))
    {
      if data == null {
        data := new byte[size](_ => 0);
        assert data[..] == Zeros(size);
      }
    }

    static method CopyIn(buf: array<byte>, p: seq<byte>, off: nat)
      requires off + |p| <= buf.Length
      modifies buf
      ensures buf[..] == Splice(old(buf[..]), p, off)
    {
      forall i | 0 <= i < |p| {
        buf[off + i] := p[i];
      }
    }

    method MarkBlocks(startBlock: nat, endBlock: int)
      modifies this`writtenBlocks
      ensures writtenBlocks == Marked(old(writtenBlocks), startBlock, endBlock)
    {
      var i := startBlock;
      while i <= endBlock && i < |writtenBlocks|
        invariant startBlock <= i
        invariant i <= endBlock + 1 || i == startBlock
        invariant |writtenBlocks| == |old(writtenBlocks)|
        invariant forall b :: 0 <= b < |writtenBlocks| ==>
          (writtenBlocks[b] <==> old(writtenBlocks)[b] || (startBlock <= b < i && b <= endBlock))
      {
        writtenBlocks := writtenBlocks[i := true];
        i := i + 1;
      }
    }

    /** The lock-held half of MarkComplete; `CloseDone` runs after the unlock. */
    method MarkComplete(now: nat)
      modifies this
      ensures View() == Completed(old(View()), now) && data == old(data)
    {
      complete, accessed := true, now;
      if data != null {
        writtenBlocks := Marked(writtenBlocks, 0, |writtenBlocks|);
      }
      shutChs, notifyCh := shutChs + {notifyCh}, notifyCh + 1;
    }

    method CloseDone()
      modifies this
      ensures View() == DoneClosed(old(View())) && data == old(data)
    {
      done := true;
    }

    method LoadComplete(src: seq<byte>, now: nat) returns (installed: nat)
      modifies this
      ensures View() == Loaded(old(View()), src, now)
      ensures installed == View().accounted - old(View()).accounted
      ensures data == old(data) || fresh(data)
    {
      if data != null {
        return 0;
      }
      data := new byte[|src|](i requires 0 <= i < |src| => src[i]);
      assert data[..] == src;
      writtenBlocks := Marked(writtenBlocks, 0, |writtenBlocks|);
      accounted, complete, accessed := accounted + |src|, true, now;
      shutChs, notifyCh := shutChs + {notifyCh}, notifyCh + 1;
      done := true;
      installed := |src|;
    }

    /** Readiness and the channel to park on, taken under one lock. */
    method WaitRange(off: nat, len: nat) returns (ready: bool, ch: nat)
      ensures ready <==> HasRange(View(), off, len)
      ensures ch == notifyCh
    {
      ch := notifyCh;
      if complete && data != null {
        return true, ch;
      }
      if data == null {
        return false, ch;
      }
      var b, last := off / BLOCK, GoDiv(off + len - 1, BLOCK);
      if last >= |writtenBlocks| {
        return false, ch;
      }
      while b <= last
        invariant off / BLOCK <= b
        invariant forall k :: off / BLOCK <= k < b ==> k <= last ==> writtenBlocks[k]
      {
        if !writtenBlocks[b] {
          return false, ch;
        }
        b := b + 1;
      }
      return true, ch;
    }

    method ReadAt(p: array<byte>, len: nat, off: nat, now: nat) returns (n: nat, status: ReadStatus)
      requires len <= p.Length && p != data
      modifies this, p
      ensures var r := ReadBytes(old(View()), len, off);
              n == |r.0| && status == r.1 && n <= len && p[..n] == r.0
      ensures p[n..] == old(p[n..])
      ensures data == old(data)
      ensures View() == old(View()).(accessed := if status == ReadEvicted then old(accessed) else now)
    {
      if data == null {
        return 0, ReadEvicted;
      }
      accessed := now;
      if off >= data.Length {
        return 0, ReadEOF;
      }
      n := Min(len, data.Length - off);
      forall i | 0 <= i < n {
        p[i] := data[off + i];
      }
      assert p[..n] == data[off..off + n];
      assert data[..] == old(data[..]);
      status := if n < len then ReadEOF else ReadOk;
    }

    method Snapshot() returns (out: Option<seq<byte>>)
      ensures out == if IsComplete(View()) then View().data else None
    {
      if !complete || data == null {
        return None;
      }
      out := Some(data[..]);
    }
  }
}
