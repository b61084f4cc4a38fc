/** A torrent's bytes and the pieces they are cut into; the last piece may be short. */
module Torrents {
  import opened Common

  /** A torrent's true content, cut into pieces. */
  datatype Torrent = Torrent(truth: seq<byte>, pieceLen: nat, count: nat)

  predicate ValidTorrent(t: Torrent) {
    t.pieceLen > 0 && |t.truth| <= t.count * t.pieceLen && (t.count > 0 ==> (t.count - 1) * t.pieceLen < |t.truth|)
  }

  function Off(t: Torrent, i: nat): nat { i * t.pieceLen }

  function Size(t: Torrent, i: nat): int { Min(t.pieceLen, |t.truth| - Off(t, i)) }

  lemma RegionInFile(t: Torrent, i: nat)
    requires ValidTorrent(t) && i < t.count
    ensures 0 < Size(t, i) && Off(t, i) + Size(t, i) <= |t.truth|
  {
    MulMono(i, t.count - 1, t.pieceLen);
  }

  lemma RegionsDisjoint(t: Torrent, i: nat, j: nat)
    requires ValidTorrent(t) && i < j < t.count
    ensures Off(t, i) + Size(t, i) <= Off(t, j)
  {
    MulMono(i + 1, j, t.pieceLen);
    assert (i + 1) * t.pieceLen == Off(t, i) + t.pieceLen;
  }

  /** The bytes of piece `i` in a file at least as long as the torrent. */
  function Region(t: Torrent, file: seq<byte>, i: nat): (r: seq<byte>)
    requires ValidTorrent(t) && i < t.count && |file| >= |t.truth|
    ensures |r| == Size(t, i)
  {
    RegionInFile(t, i);
    file[Off(t, i)..Off(t, i) + Size(t, i)]
  }
}
