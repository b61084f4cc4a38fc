# torrent-go, verified

A Dafny model of the parts of torrent-go that keep state by hand: the RAM piece cache with its byte
ledger, eviction and disk mode, the readers over it, the HLS timeline, the rendition manager, and four
smaller state holders. `dafny verify dfyconfig.toml` checks all of it.

Objects the program updates in place are classes whose methods are proved against functions on a value
(`View()` gives that value). Where the program runs several goroutines, each lock-held section is one step
of a machine on such values, and the theorems quantify over all runs of it. Clocks, the torrent client,
providers and encoders appear as arguments or as the choice of step.

| file | what it holds |
|---|---|
| `common.dfy` | options, Go's integer division, sums over maps |
| `mempiece.dfy`, `wakeups.dfy` | one piece in RAM; its waiters under every interleaving |
| `windows.dfy` | read classes, protected windows and the RAM bound, priorities |
| `cache.dfy`, `storage.dfy` | one torrent's cache; the cross-torrent eviction pass |
| `ledger.dfy`, `ledgerruns.dfy` | the ledger machine, its law, and what holds over whole runs |
| `torrents.dfy`, `disk.dfy` | piece regions; the bitmap, the disk backing and the crash machine |
| `reader.dfy` | a piece while a reader holds it, the file reader, the header-caching reader |
| `hls.dfy`, `audio.dfy`, `fragwriter.dfy` | segment grid, audio slices, fragment writer |
| `segcache.dfy`, `playback.dfy`, `analyzer.dfy` | segment LRU, session reaper, intro matcher |
| `rendition.dfy`, `renditionruns.dfy`, `manager.dfy` | failures, lifecycle and candidates; the machine; the objects |

## Where the code falls short of a property

Each has a lemma that shows the failure, and beside it the exact condition under which the property holds.

- The ledger is conserved exactly when every landing in an open cache places nothing or is resident just when
  it fits, and every cache is torn down with nothing in flight (`LedgerConservedIff`). `StaleLandingLeaks`,
  `ShortWriteIsNeverBooked` and `CloseInFlightLeaks` are runs from the empty storage for the three ways to
  fail, and `ExcessPersists` says the error stays. `LedgerLaw` holds of all runs, with the difference tracked.
- The block map is truthful exactly for chunks of whole 16 KiB blocks (`ChunkKeepsFaithIff`).
- A chunk that lands in a piece already given back makes the rest of it readable as zeros
  (`LateChunkReadsTrueIff`); the lives that readers are proved against exclude just those landings.
- A write past the end of a piece marked complete while empty allocates the buffer without waking anybody
  (`WriteKeepsNotifyIff`, `LostNotifyExample`). The completion channel still covers readers (`NoLostWakeup`).
- `DerivedMaxStreams` bounds protected RAM exactly for piece lengths whose read-ahead plus nine pieces fit in
  80 MiB (`AdmittedStreamsFitIff`), which they do when nine pieces fit in 16 MiB (`ShortPiecesAreModest`);
  `LargePiecesOverflow` is a single 4 MiB-piece player over budget.
- The comment on the reaper says a watched torrent is never touched. A viewer admitted between the decision
  and the claim is purged with the torrent (`LateViewerLosesIff`, `LateViewerRun`); without a keepalive in
  between nobody is (`QuietDropHitsNobody`).
- `producedTo` starts at zero, so a request for an audio window ending at or before time zero is not made to
  wait for the first frame and fails for want of frames (`RefusedTooEarlyIff`); `EarlyGridRefused` is a grid
  with such a window. What is served early is always final (`EarlySliceIsFinal`).
- A persisted piece that is resident partly filled blocks its own reload: it is reported complete, so nobody
  fetches the rest, and it is not complete, so nothing loads or evicts it (`PersistedSurvivesIff`,
  `StuckStays`). Switching a streaming torrent to disk mode over an earlier bitmap gets there
  (`BlockedReloadRun`).
- A piece marked complete while empty says it is whole as soon as any chunk lands (`EmptyCompletionIff`).
- A bitmap save that fails is not reported: a piece just written is then forgotten by the next start, and one
  just invalidated is back (`DurableIffSaved`, `ClearedIffSaved`).
- A provider that files a cancelled context under a category other than cancellation ends the generation
  (`EndsIff`, `MisfiledCancellationEnds`).

## Model

| member | source | states |
|---|---|---|
| `MemPieces.AvailableRangeIsTrue` | storage/mempiece.go:158-177 | a range reported available in a faithful piece reads back as exactly the verified bytes, without error |
| `MemPieces.WholeBlocksKeepFaith` | storage/mempiece.go:88-113 | a chunk of whole 16 KiB blocks (or up to the piece end) of true bytes keeps the block map truthful |
| `MemPieces.PartialBlockBreaksFaith` | storage/mempiece.go:105-109 | every other chunk shape marks a block it did not fill: on a concrete piece the map then lies |
| `MemPieces.ChunkKeepsFaithIff` | storage/mempiece.go:88-113 | a chunk shape keeps all pieces truthful if and only if it covers whole blocks or the piece tail |
| `MemPieces.OtherStepsKeepFaith` | storage/mempiece.go:115-130 | completion after verification, reload, release and creation keep the block map truthful |
| `MemPieces.EmptyCompletionIff` | storage/mempiece.go:88-130 | a piece marked complete while empty is truthful after the chunk that lands next, whatever its content, if and only if that chunk is the whole piece |
| `MemPieces.MemPiece.constructor` | storage/mempiece.go:25-34 | a new piece is empty, incomplete, accounts nothing and has one open channel |
| `MemPieces.MemPiece.ReleaseAndSize` | storage/mempiece.go:56-66 | returns what was accounted, empties the piece, wakes its waiters |
| `MemPieces.MemPiece.WriteAt` | storage/mempiece.go:88-113 | buffer, block map, accounted bytes and channels after a write of any length at any offset, and when the write is short |
| `MemPieces.MemPiece.MarkBlocks` | storage/mempiece.go:105-109 | exactly the blocks of the range that exist are marked |
| `MemPieces.MemPiece.MarkComplete` | storage/mempiece.go:115-130 | the lock-held half of completion |
| `MemPieces.MemPiece.LoadComplete` | storage/mempiece.go:213-230 | installs reloaded bytes only into a piece without a buffer and returns exactly the bytes newly accounted |
| `MemPieces.MemPiece.WaitRange` | storage/mempiece.go:149-177 | ready exactly when every block of the range is marked or the piece is whole; the channel returned is the open one |
| `MemPieces.UsesAreStamped` | storage/mempiece.go:88-130 | writes, completion and reloads set the time of last use, release does not |
| `MemPieces.MemPiece.ReadAt` | storage/mempiece.go:68-86 | copies the buffer's bytes, reports eviction or a short read, touches nothing else |
| `MemPieces.MemPiece.Snapshot` | storage/mempiece.go:199-208 | the whole content exactly when complete and resident |
| `Wakeups.NextKeepsInv` | storage/mempiece.go:38-48 | every step keeps: only the current channel is open, and a waiter on it is still short of its range or completion is announced |
| `Wakeups.NoLostWakeup` | storage/mempiece.go:149-156 | in every interleaving of waits, writes, completions, reloads and releases, a waiter whose range is available is parked on a closed channel or sees completion announced |
| `Wakeups.WriteKeepsNotifyIff` | storage/mempiece.go:88-103 | the notify channel alone keeps its promise across a write except exactly when the piece was marked complete while empty and the write starts past its end |
| `Wakeups.NoLostNotify` | storage/mempiece.go:38-48 | when writes start inside the piece, the notify channel alone never strands a waiter, in every run |
| `Wakeups.LostNotifyExample` | storage/mempiece.go:88-98 | a reachable state in which it does |
| `Caches.Cache.GetOrCreateMemPiece` | storage/cache.go:123-138 | the resident piece, a new one with a new identity, or a detached one when closed |
| `Caches.Cache.MarkNotComplete` | storage/cache.go:140-157 | removes the piece and its accounted bytes, unless closed or absent |
| `Storages.Storage.UpdateFilled` | storage/cache.go:159-170 | books the bytes with the cache and with the global total, both only while the cache is open, and touches no other cache |
| `Caches.Cache.RegisterReader` | storage/cache.go:183-190 | a new reader adds exactly what it protects to what is kept from eviction |
| `Caches.Cache.UnregisterReader` | storage/cache.go:192-196 | and takes away only that, never what another reader protects |
| `Caches.Cache.GetReaderWindows` | storage/cache.go:198-226 | the loop over readers in any order yields the union of their protected pieces, among them every piece an open reader needs, in bytes of the torrent |
| `Caches.Cache.CollectEvictCandidates` | storage/cache.go:279-293 | exactly the resident complete unprotected pieces, each once, with their identities |
| `Caches.Cache.EvictPiece` | storage/cache.go:298-326 | evicts only the very piece collected, still complete and unprotected, and frees what it accounted |
| `Caches.Cache.Close` | storage/cache.go:71-93 | releases the sum of what all resident pieces account and leaves the cache empty |
| `Ledger.NextKeepsLaw` | storage/piece.go:34-42 | every step of the interleaved machine keeps the ledger law at all three levels |
| `Ledger.RunKeepsLaw` | storage/cache.go:71-170 | so does every run |
| `LedgerRuns.LedgerLaw` | storage/cache.go:123-170 | at every point of every run, filled plus bytes in flight equals the resident accounted bytes plus drift, the global total plus pending deltas equals the sum of filled plus global drift, closed caches are empty |
| `LedgerRuns.StepBalancedIff` | storage/piece.go:34-42 | balanced books stay balanced across a step if and only if it is not a landing in an open cache whose residency and fitting differ, nor a teardown with bytes in flight |
| `LedgerRuns.LedgerConservedIff` | storage/cache.go:123-170 | from balanced books, filled plus bytes in flight is what each open cache holds and the global total plus pending deltas the sum of filled, at every point of a run, if and only if every step is such a one |
| `LedgerRuns.InitBalanced` | storage/storage.go:45-57 | an empty storage has balanced books |
| `LedgerRuns.QuietTotal` | storage/storage.go:170-209 | after such a run, with nothing half done, the global total is exactly the accounted bytes held in RAM |
| `LedgerRuns.ClosedForever` | storage/cache.go:123-170 | a closed cache stays closed, empty and at zero in every continuation |
| `LedgerRuns.LeavesOnlyIf` | storage/cache.go:298-326 | a piece leaves the map only by invalidation, teardown, or an eviction aimed at it while complete and outside every window |
| `LedgerRuns.ShieldedSurvives` | storage/cache.go:198-226 | a piece that is guarded or incomplete at every step survives the run as the same object, whatever was collected earlier |
| `LedgerRuns.ReleasedOnce` | storage/cache.go:298-326 | in every run no piece is released twice and no released piece is resident |
| `LedgerRuns.StaleLandingLeaks` | storage/piece.go:34-42 | a run from the empty storage in which a byte lands in an invalidated piece: filled is 1 with no piece resident |
| `LedgerRuns.ShortWriteIsNeverBooked` | storage/piece.go:34-42 | a run in which a chunk longer than the piece lands in part and is never booked |
| `LedgerRuns.CloseInFlightLeaks` | storage/cache.go:71-93 | a run in which a cache is closed with a byte in flight: the global total ends at -1 |
| `LedgerRuns.ExcessPersists` | storage/cache.go:123-170 | such an excess or shortfall is unchanged in every continuation until the cache is torn down, unless another landing of that kind changes it |
| `Windows.ProtectsIff` | storage/cache.go:198-226 | in bytes: an open reader protects exactly the pieces from two before the one holding its position to as far ahead as its class looks (64 MiB, 12, 8 or 2 pieces), and the first and last three pieces its file touches |
| `Windows.ClosedProtectsIff` | storage/reader.go:258-285 | a closed reader still registered protects piece zero and the ends of its file |
| `Windows.ProtectsAtMost` | storage/reader.go:258-285 | a reader protects at most max(2, read-ahead) + 9 pieces |
| `Windows.ProtectsExactly` | storage/cache.go:198-226 | the bound is attained in the middle of a file |
| `Windows.PlayerPinsAtMost` | storage/readclass.go:67-76 | a player pins at most 64 MiB and nine pieces, for pieces up to 32 MiB |
| `Windows.ShortPiecesAreModest` | storage/readclass.go:67-76 | when nine pieces fit 16 MiB a player's greatest share is within the 80 MiB it is counted as |
| `Windows.AdmittedStreamsFit` | storage/storage.go:97-113 | for every requested budget the derived number of players, with pieces within that share, never pins more than the capacity |
| `Windows.AdmittedStreamsFitIff` | storage/storage.go:97-113 | for a given piece length, every budget holds against all admitted players if and only if (read-ahead + 9) pieces fit 80 MiB |
| `Windows.LargePiecesOverflow` | storage/storage.go:107-113 | with 4 MiB pieces one admitted player pins 100 MiB of an 80 MiB budget |
| `Windows.ClampedIs` | storage/storage.go:97-103 | the capacity is what was asked for or 80 MiB, whichever is more |
| `Windows.DerivedIsMost` | storage/storage.go:107-113 | the derived number of streams is the most whose 80 MiB fit the capacity, and one at least |
| `Priorities.RaiseRange` | storage/cache.go:408-489 | raises exactly the file pieces of the range and never lowers one |
| `Priorities.RaiseForReader` | storage/cache.go:408-489 | merges one reader's claim on every piece by maximum |
| `Priorities.UpdatePriorities` | storage/cache.go:408-489 | for readers in any order, each piece of the file gets at least what every open reader wants of it, and no more than some open reader wants, in bytes of the torrent |
| `Priorities.MergeOneMore` | storage/cache.go:408-489 | one more reader is a maximum with its claim |
| `Priorities.AddingReaderNeverLowers` | storage/cache.go:408-489 | a newly opened reader never lowers a piece |
| `Priorities.ClaimIs` | storage/readclass.go:67-106 | what an open reader wants of a piece: Now or Normal where its position is, High for a player's next 64 MiB, Normal for 12 or 8 pieces of a demuxer, High near the ends of the file (32 MiB for the index reader), else nothing |
| `Priorities.NowIffPlayerThere` | storage/readclass.go:84-106 | a file piece is Now exactly when an open playback reader's position is a byte of it |
| `Storages.SortByAccess` | storage/storage.go:170-209 | the candidates by last access, a permutation of those collected |
| `Storages.EvictNext` | storage/cache.go:298-326 | in an uninterrupted pass each candidate still passes its checks and exactly that piece goes |
| `Storages.PassIsLru` | storage/storage.go:170-209 | stopping at the first point within budget makes the pass least-recently-used |
| `Storages.Storage.CollectAll` | storage/storage.go:170-209 | every evictable piece of every torrent, once |
| `Storages.Storage.EvictInOrder` | storage/storage.go:170-209 | the loop evicts a prefix of the candidates and stops within budget or when none is left |
| `Storages.Storage.EvictGlobalIfNeeded` | storage/storage.go:170-209 | ends within capacity or with every resident piece incomplete or protected by some reader; each victim was complete and protected by none, none was used after a survivor, over budget before each eviction, freed exactly the victims' bytes, nothing else changed |
| `Storages.Storage.SetGlobalCapacity` | storage/storage.go:97-103 | clamps the budget and runs such a pass against it |
| `Bitmaps.UnpackOfPacked` | storage/disk.go:144-154 | unpacking a packed vector gives it back, for every piece count |
| `Bitmaps.Pack` | storage/disk.go:130-142 | sets exactly the bits of the pieces held, one per piece, rounded up to bytes |
| `Bitmaps.Load` | storage/disk.go:144-154 | reads a bitmap of any length, missing bits as false |
| `Disks.AllPutIsGood` | storage/disk.go:78-90 | when every byte of a verified snapshot has reached the file its region holds the verified bytes |
| `Disks.NextKeepsSound` | storage/disk.go:78-111 | every step, torn writes, failed saves, crashes and reloads included, keeps set bits, resident pieces and writes in progress true |
| `Disks.SavedBitsAreTrue` | storage/disk.go:78-101 | at every point of every run with crashes, from any data file, a bit saved or in memory names a region holding that piece's verified bytes, and every piece in RAM, whole or in part, tells the truth |
| `Disks.ReloadIsTrue` | storage/cache.go:373-394 | loading a good region leaves a truthful piece, and exactly the verified bytes unless the piece already had part of them |
| `Disks.PersistedSurvivesIff` | storage/cache.go:343-400 | until MarkNotComplete a durable piece is reported complete whenever the disk is attached, and a read leaves it resident with exactly its verified bytes if and only if it was not resident partly filled |
| `Disks.StuckStays` | storage/cache.go:373-394 | a partly filled resident piece that is on disk stays as it is and reported complete, until the client writes it all the same, it is invalidated or the process ends |
| `Disks.BlockedReloadRun` | storage/storage.go:128-163 | a run from nothing that gets there: persisted, then streamed by a new process, then switched to disk mode; its second block cannot be read |
| `Disks.DurableIffSaved` | storage/disk.go:130-142 | a finished write becomes durable exactly when the bitmap save succeeds |
| `Disks.ClearedIffSaved` | storage/disk.go:104-142 | an invalidated piece is reported complete again after a restart exactly when the save failed and its bit had been saved |
| `Disks.WriteKeepsOtherRegions` | storage/disk.go:78-90 | a write in one piece's region leaves every other piece's bytes alone |
| `Disks.WriteCallIsRun` | storage/disk.go:78-90 | a WritePiece call with a snapshot, failing part way or not, is a run of the crash machine ending in the object's new state |
| `Disks.ClearCallIsRun` | storage/disk.go:104-111 | so is clearing a piece that is on disk |
| `Disks.DiskBacking.constructor` | storage/disk.go:31-55 | truncates whatever data file was left to the torrent's length and restores the bits of its bitmap: the machine's attach step, whatever is in RAM |
| `Disks.DiskBacking.WritePiece` | storage/disk.go:78-90 | for any index and data: data first, then the bit if there is one, then the bitmap; a negative offset or a failed write leaves bits and bitmap alone |
| `Disks.DiskBacking.ReadPiece` | storage/disk.go:93-101 | the region's bytes exactly when the bit is set |
| `Disks.DiskBacking.Clear` | storage/disk.go:104-111 | clears the bit and saves, only if it was set |
| `PieceLife.LifeIsFaithful` | storage/mempiece.go:25-130 | from creation on, over every life in which the client writes true bytes in whole blocks and completes what it verified, a piece tells the truth |
| `PieceLife.ReadyIff` | storage/mempiece.go:149-177 | over every lawful life without release, a range is ready if and only if the piece was verified or read back whole or each byte of the range was brought by some chunk |
| `PieceLife.LaterReadIsTrue` | storage/mempiece.go:68-86 | a reader that found its range available later reads, from that object, the true bytes or the news of eviction, over every lawful life |
| `PieceLife.ReadAfterLookIsTrue` | storage/reader.go:50-196 | the two together: any lawful life since creation, a look that finds the range, anything lawful after it, and the read |
| `PieceLife.LateChunkReadsTrueIff` | storage/mempiece.go:88-113 | when a chunk lands in a piece given back since, a reader is sure of the true bytes if and only if the chunk covers its whole range |
| `Readers.Locate` | storage/reader.go:50-196 | every byte lies in exactly the piece and offset computed, the short last piece included |
| `Readers.LastPieceSize` | storage/reader.go:50-196 | the size computed for the last piece is its real size |
| `Readers.Reader.Seek` | storage/reader.go:198-236 | the new position, or an error and no change |
| `Readers.Reader.ReadOnce` | storage/reader.go:50-196 | one piece's share of a read is the torrent's bytes at that offset, for pieces with any lawful life since their creation |
| `Readers.Reader.Gather` | storage/reader.go:50-196 | the loop delivers the file's bytes in order, as many as asked for unless interrupted |
| `Readers.SteadyIsReady` | storage/reader.go:50-196 | a range whose bytes have all landed is ready, whatever else is missing |
| `Readers.Reader.Read` | storage/reader.go:50-196 | for every offset, length, piece size and lawful life of the pieces, the bytes delivered are the flat file's at the position; without error min(len, fileSize-pos) of them; no error when just the bytes asked for have landed |
| `CachingReaders.ReadFull` | handlers/stream.go:338-410 | a prefix of what was asked for, whatever fails |
| `CachingReaders.PreloadHeaders` | handlers/stream.go:338-410 | the header cache always mirrors the file and never shrinks; it is full when nothing is missing |
| `CachingReaders.CachingReader.Cached` | handlers/stream.go:282-332 | a hit in the cached head or tail is the file's bytes at the position |
| `CachingReaders.CachingReader.Read` | handlers/stream.go:282-332 | the same bytes as the reader underneath, for every reachable cache state |
| `SegLists.WindowsAbut` | handlers/hlsindex.go:35-59 | consecutive windows share their boundary and the last ends with the content |
| `SegLists.DurationsSum` | handlers/hlsindex.go:35-48 | the durations of a grid sum to the content length |
| `SegLists.NextCutIsFirstDue` | handlers/hlsindex.go:184-199 | each cut is the first keyframe at least 5.999 s after the previous one, for unsorted lists too |
| `SegLists.ComputeSegList` | handlers/hlsindex.go:184-199 | the grid is cut at exactly those keyframes, with the content end corrected when it is not after the last cut |
| `SegLists.CopyGridValid` | handlers/hlsindex.go:184-199 | starts increase strictly from zero and interior segments last at least 5.999 s |
| `SegLists.CopySegmentsBounded` | handlers/hlsindex.go:184-199 | for sorted keyframes an interior segment is shorter than 5.999 s plus the largest gap |
| `SegLists.UniformSegList` | handlers/hlsindex.go:201-214 | for any duration, the start of each uniform segment and exactly how many there are |
| `SegLists.UniformGridValid` | handlers/hlsindex.go:201-214 | that grid is valid exactly when there is content, and no segment exceeds 6.001 s |
| `SegLists.TargetDuration` | handlers/hls.go:277-296 | the least integer that bounds every duration |
| `SegLists.RoundedWithinTarget` | handlers/hls.go:277-296 | hence every rounded duration is within the target, as section 4.3.3.1 of RFC 8216 requires |
| `AudioSlices.BoundariesMeet` | handlers/hlsaudiocont.go:142-154 | neighbouring segments meet at the same sample |
| `AudioSlices.BoundaryIsNearest` | handlers/hlsaudiocont.go:146-147 | a boundary is the sample nearest its time, or for times before zero one of the two after it |
| `AudioSlices.WindowHas` | media/audiocont.go:408-419 | a window holds exactly the frames that start in it |
| `AudioSlices.SliceFrames` | media/audiocont.go:396-423 | binary search and scan yield exactly the frames with lo <= pts < hi, in order, and an error when there are none |
| `AudioSlices.ProduceSegment` | handlers/hlsaudiocont.go:135-154 | one turn of the wait loop: not yet, the slice, or the error |
| `AudioSlices.WaitsIff` | handlers/hlsaudiocont.go:142-154 | a request waits exactly while the encode runs and its last frame ends before the window does |
| `AudioSlices.WindowsJoin` | media/audiocont.go:396-418 | adjacent windows concatenate to the window over both |
| `AudioSlices.SegmentsPartition` | handlers/hlsaudiocont.go:142-154 | segments i..j concatenated are exactly the frames from lo(i) up to hi(j), each once and in order, for every grid and monotone frame list |
| `AudioSlices.ContinuousAAC.Append` | media/audiocont.go:266-270 | appends the frame with priming taken off and moves producedTo to its end |
| `AudioSlices.EarlySliceIsFinal` | handlers/hlsaudiocont.go:142-154 | for every window, what is served once producedTo >= hi is what the finished encode serves |
| `AudioSlices.RefusedTooEarlyIff` | handlers/hlsaudiocont.go:142-154 | a request is refused for want of frames that the finished encode would serve if and only if nothing is encoded yet, the window ends at or before time zero and gets a frame later |
| `AudioSlices.EarlyGridRefused` | handlers/hlsaudiocont.go:142-154 | a valid grid, of a file whose first keyframe is before time zero, whose first segment is so refused |
| `FragWriters.StampedIsSeamless` | media/segment.go:286-368 | repaired and stamped, a stream has the same packets at their own dts and pts wherever these increase and else the next tick, increasing dts, pts >= dts, positive durations and no gap |
| `FragWriters.FedAllStreams` | media/segment.go:286-346 | one more packet of any stream keeps every stream in its specified state |
| `FragWriters.FragWriter.Sanitize` | media/segment.go:286-302 | the repaired packet and the stream's new last dts; a packet with neither timestamp is unchanged |
| `FragWriters.FragWriter.Write` | media/segment.go:326-346 | holds the packet and emits its predecessor with the gap as duration |
| `FragWriters.FragWriter.Finish` | media/segment.go:350-368 | flushes each stream's last packet, in whatever order, with a positive duration |
| `FragWriters.ProduceSegment` | media/segment.go:286-368 | for any interleaving of timed packets, every stream comes out complete, in order, at its own times wherever these increase, and seamless |
| `SegCaches.TrimmedIsRecent` | handlers/hlscache.go:57-82 | eviction keeps the most recent entries, within budget or one, and never evicts more than needed |
| `SegCaches.CacheRefinesMap` | handlers/hlscache.go:46-98 | in every run the cache is part of the plain map of last puts, list and index agree, the byte count is exact and the list is the order of last use |
| `SegCaches.PutEvictsLeastRecent` | handlers/hlscache.go:57-82 | a put keeps its key, ends within budget or with one entry, and evicts only entries used before every survivor |
| `SegCaches.PurgeKeepsIff` | handlers/hlscache.go:86-98 | a purge keeps exactly the entries whose keys do not start with the prefix |
| `SegCaches.SegCache.Get` | handlers/hlscache.go:46-55 | a hit returns the entry's bytes and makes it most recent |
| `SegCaches.SegCache.Put` | handlers/hlscache.go:57-82 | inserts or replaces, then evicts to budget |
| `SegCaches.SegCache.PurgePrefix` | handlers/hlscache.go:86-98 | removes exactly the matching keys and their bytes, in any order of visiting them |
| `Playbacks.ReapedOnlyAfterGrace` | handlers/playback.go:135-185 | in every run a torrent is chosen only with no session, not persistent, and more than the grace after every visit at which it was either |
| `Playbacks.IdleIsReaped` | handlers/playback.go:135-185 | in every run, if from some visit on each visit finds the torrent idle and nobody restarts or ends its clock, a visit more than the grace later decides to drop it |
| `Playbacks.ExpireKeepsIff` | handlers/playback.go:135-150 | a round keeps exactly the sessions that pinged within the time to live |
| `Playbacks.SessionsWithinCap` | handlers/playback.go:70-95 | sessions never exceed the cap while the budget does not shrink |
| `Playbacks.ClaimLeavesNothing` | handlers/torrents.go:545-563 | a claimed drop leaves no session and no clock on the torrent and touches no other |
| `Playbacks.QuietDropHitsNobody` | handlers/playback.go:135-185 | without a keepalive for the torrent in between, the claim hits no session |
| `Playbacks.LateViewerLosesIff` | handlers/torrents.go:545-563 | after the decision to drop, a viewer arriving before the claim loses the session if and only if it was admitted and no drop was under way |
| `Playbacks.LateViewerRun` | handlers/playback.go:135-185 | a run from the start in which that happens |
| `Playbacks.HandlerContext.HandleKeepalive` | handlers/playback.go:70-95 | refresh, admission below the cap, refusal at it, bad request |
| `Playbacks.HandlerContext.ExpireSessions` | handlers/playback.go:135-185 | removes exactly the sessions older than the cutoff and counts them |
| `Playbacks.HandlerContext.TorrentRefcount` | handlers/playback.go:188-196 | the number of sessions on the torrent |
| `Playbacks.HandlerContext.Sweep` | handlers/playback.go:135-185 | one torrent's visit: its grace clock and the decision to drop |
| `Playbacks.HandlerContext.ClaimDrop` | handlers/torrents.go:545-563 | claims once and purges exactly this torrent's sessions and clock |
| `IntroMatch.ExtendBlock` | handlers/analyzer.go:301-315 | the furthest block of matches from a start |
| `IntroMatch.DensestBlock` | handlers/analyzer.go:290-325 | the longest block, first on ties, or that none is long enough |
| `IntroMatch.FindOffset` | handlers/analyzer.go:228-263 | the first of the offsets tried with the most matching frames, or that none has enough |
| `IntroMatch.SimilarIff` | handlers/analyzer.go:244-251 | a strong match is at most six differing bits, counted by clearing the lowest bit set |
| `IntroMatch.PairIsCompared` | handlers/analyzer.go:228-253 | at an offset every pair of frames that far apart is compared |
| `IntroMatch.UntriedIsTooShort` | handlers/analyzer.go:228-263 | an offset not tried has too few frames to reach the minimum, so the best tried is the best of all |
| `IntroMatch.IntroIsUnique` | handlers/analyzer.go:214-339 | at most one answer meets the definition of an intro |
| `IntroMatch.FindIntroMatch` | handlers/analyzer.go:214-339 | answers exactly when there is an intro, and with that one, indices in range |
| `Failures.TaggingKeepsClass` | media/rendition/errors.go:75-89 | tagging an error with its generation changes neither its category nor what it ends in |
| `Failures.Classified` | media/rendition/errors.go:64-73 | the outermost failure of a chain gives its category, else cancellation or invalid output by what the chain ends in |
| `Failures.CanFallback` | media/rendition/errors.go:91-103 | everything but cancellation and source I/O allows another candidate |
| `Lifecycles.LifeIsFixed` | media/rendition/lifecycle.go:46-65 | every chain of accepted transitions is one fixed path, except for failing before or after running |
| `Lifecycles.WaysAreLives` | media/rendition/lifecycle.go:46-65 | each of those paths can be taken |
| `Lifecycles.GenerationLifecycle.Transition` | media/rendition/lifecycle.go:46-65 | moves exactly on allowed transitions |
| `Candidates.DeviceGateIsItsOwn` | media/rendition/manager.go:167-190 | no device shares the CPU gate |
| `Candidates.EveryClauseMatters` | media/rendition/manager.go:142-165 | breaking any one clause of the validation makes a good contract bad |
| `Candidates.SortCandidates` | media/rendition/manager.go:217-235 | sorted by load, allow-list position or score, stably |
| `Candidates.ListCandidates` | media/rendition/manager.go:198-248 | exactly what the providers offer and the allow-list lets by, copies first, then decoding and then encoding hardware, then CPU; within a stage the less loaded first, then by position in the allow-list or by score, and stably |
| `RenditionRuns.NextKeepsInv` | media/rendition/manager.go:50-132 | every step of any number of concurrent calls keeps token, pipeline and policy invariants |
| `RenditionRuns.TokensConserved` | media/rendition/admission.go:21-72 | in every run a gate's use is the number of calls and unreleased renditions holding it, never above its limit |
| `RenditionRuns.NothingLeaks` | media/rendition/manager.go:50-132 | every pipeline is closed at most once, by the end of its call exactly once, and when all calls are over every gate is free |
| `RenditionRuns.BusyPipelineIsOpen` | media/rendition/manager.go:274-326 | a live rendition's pipeline is its own and open |
| `RenditionRuns.RenditionFollowsPolicy` | media/rendition/manager.go:50-132 | a rendition has the contract asked for and its candidate's descriptor, comes after candidates that all failed in order with fallback allowed, and is never CPU after hardware exhaustion |
| `RenditionRuns.FullDeviceBarsCPU` | media/rendition/manager.go:55-70 | a call that tries a device while every token of its gate is taken never ends in a CPU rendition, in any run from there |
| `RenditionRuns.FullDeviceThenCPU` | media/rendition/manager.go:55-70 | and if the CPU is next, it is refused with resource exhaustion |
| `RenditionRuns.PrimedIsServed` | media/rendition/manager.go:84-126 | a pipeline primed as asked is served with its descriptor |
| `RenditionRuns.SegmentIsHandedOut` | media/rendition/manager.go:274-297 | a produced segment is handed out as it is, with one call of the pipeline |
| `RenditionRuns.RefusedOnlyIf` | media/rendition/manager.go:50-132 | the only reasons for refusal |
| `RenditionRuns.ReleaseFreesOnce` | media/rendition/manager.go:316-326 | a repeated release changes nothing and nothing done to a released rendition frees a token or closes a pipeline |
| `RenditionRuns.InitIsFrozen` | media/rendition/manager.go:265-272 | in every run Init answers the same non-empty bytes the provider primed until the first release takes effect, and an error ever after |
| `RenditionRuns.EndedOnlyRepeats` | media/rendition/manager.go:274-314 | after failing or completing, until released, in every run Segment repeats the same error and calls no pipeline |
| `RenditionRuns.EndsIff` | media/rendition/manager.go:296-313 | a generation ends exactly on errors not classed as cancellation, and completes exactly on EOF |
| `RenditionRuns.MisfiledCancellationEnds` | media/rendition/manager.go:296-313 | a cancelled context a provider files under another category does end the generation |
| `Managers.AdmissionRegistry.GateFor` | media/rendition/admission.go:60-72 | a gate is made once with its limit and no use changes |
| `Managers.AdmissionRegistry.TryAcquire` | media/rendition/admission.go:43-50 | takes a token exactly when there is room |
| `Managers.AdmissionRegistry.Acquire` | media/rendition/admission.go:21-41 | a token, a timeout or the caller's cancellation, and the use that follows |
| `Managers.AdmissionRegistry.Release` | media/rendition/admission.go:52-53 | gives back one token of this gate and no other |
| `Managers.Ranks` | media/rendition/manager.go:25-31 | each identity of the allow-list at its first position |
| `Managers.VideoRenditionManager.constructor` | media/rendition/manager.go:25-48 | non-positive concurrency becomes one; each identity of the allow-list ranks by its first position |
| `Managers.ManagedRendition.Segment` | media/rendition/manager.go:274-314 | exactly the machine's step on state, pipeline calls and answers; the ignored transition errors cannot occur |
| `Managers.ManagedRendition.Release` | media/rendition/manager.go:316-326 | the first release closes the pipeline once and frees one token, later ones nothing |
| `Managers.VideoRenditionManager.Admit` | media/rendition/manager.go:167-190 | a device is turned away exactly when all its tokens are taken, as exhausted; the CPU exactly when none is free within the wait, as timed out or cancelled; otherwise one token is taken |
| `Managers.VideoRenditionManager.TryCandidate` | media/rendition/manager.go:60-126 | a failing candidate leaves every gate as it was and its pipeline closed once; a served one holds one token |
| `Managers.VideoRenditionManager.Turn` | media/rendition/manager.go:56-127 | one turn of the loop ends the call as its record says, or goes on with nothing held |
| `Managers.VideoRenditionManager.Search` | media/rendition/manager.go:50-132 | the loop over candidates refines the machine's record of the call |
| `Managers.VideoRenditionManager.Acquire` | media/rendition/manager.go:50-132 | the first candidate that is let in, prepared as asked and named is served, each one before failed for the reason its gate's load and its provider give, a full device that was tried keeps the CPU out, an error leaves every gate as it was, an answer takes one token, and all other pipelines are closed |

## Left out

- libav demuxing, decoding, encoding and muxing, hardware probing, tone mapping and thumbnails: packets, frames and pipelines are given sequences and outcomes; a muxer that fails to take a packet is not modelled.
- The anacrolix torrent client: an environment that writes chunks, completes and invalidates pieces; `SetPriority` and `UpdateCompletion` calls are recorded only as the map of priorities set.
- HTTP routing, JSON, auth, logs, diagnostics, settings, TMDB, catalog persistence and the web UI.
- Real time: clocks are arguments; timeouts and cancelled contexts are outcomes.
- Floating-point rounding: grid and audio windows are in exact arithmetic; the six-decimal printing of EXTINF is not modelled.
- `RemoveDisk`, file deletion on drop, fsync and power loss: the crash machine covers process crashes, with data writes torn at any byte, in any order, and the bitmap replaced atomically; that a write reported complete wrote every byte is what the operating system promises.
- `EvictIfNeeded`/`cleanPieces` (the fallback without a global accountant), `HasByteRange`, `WaitForPieces`, `CacheInfos`, `ParseReadClass`, `DerivedMaxAudioTranscoders`: easy beside what is modelled.
- `matchIntroTemplate`, `uniqueTrackName`, `parseSeg`, subtitle conversion, MKV parsing, the thumbnail cache, the WAV header: true but easier.
- `getAudioCont` and `dropAudioCont`: restart and reuse of encoders is bookkeeping around the frame list that is modelled.
- Caches.Cache: holds each piece as a value with an identity rather than as a `MemPiece` object, so updating a piece through two handles at once appears only in the ledger and wakeup machines.
- Caches.Cache.EvictPiece: the released piece itself is the concern of `MemPiece.ReleaseAndSize`; here only the map and the ledger change, and the global accountant is updated by the caller.
- Caches.Cache.MarkNotComplete: returns the freed bytes; passing them to the global accountant is the caller's step.
- MemPieces.MemPiece.WriteAt: offsets are not negative.
- `OpenTorrent` for a hash that still has a cache: the ledger machine names caches by object, so the overwritten one lives on in it; the map entry itself is not modelled.
- Readers.Reader.Read: pieces are gathered first and copied into the caller's buffer once, so bytes already copied before an interruption appear in the buffer only at return.
- Readers.Reader.Read: states its promise for pieces whose client writes true bytes in whole blocks, completes only what it verified, and lands nothing in a piece after its release; `ChunkKeepsFaithIff` and `LateChunkReadsTrueIff` show why.
- FragWriters.ProduceSegment: takes packets that carry a pts or a dts; one with neither is left by the sanitiser to the muxer, and what the muxer makes of it is not modelled.
- SegLists.ComputeSegList: called with at least one keyframe, as its only caller does.
- Candidates.ListCandidates: gate loads are read once, while the code reads them again in each comparison, where another call may change them in between; the gates its sort creates have no use and are not recorded.
- Managers.VideoRenditionManager.Acquire: runs alone; its interleavings with other calls are those of the machine in `renditionruns.dfy`, whose record of the call it keeps.
- RenditionRuns.TokensConserved: the machine takes any candidate list, so it does not depend on the order of trial.
- Error chains are single chains: `errors.Join` is not modelled; messages are reduced to what the code branches on.
- Playbacks.ReapedOnlyAfterGrace: counts the reaper's own visits, as the code does; a session that comes and goes between two visits is not seen by either.
- `descriptor` bandwidth: 11/10 of the maximum bitrate in unbounded integers; a bitrate near the 64-bit limit would wrap in the code.
