# Verified model of an LSM-tree key-value store

A Dafny model of an embedded log-structured merge-tree store, with proofs of what its design
promises: reads are reads of the history, acknowledged writes survive crashes, compaction
changes no answer, and the file formats, heap merge, skip list, cache and checksum do what the
engine relies on.

## The parts

- **Engine** (`Engine`, `EngineInv`, `EngineFront`, `EngineBack`, `EngineRecovery`). A state
  machine whose steps are what one thread does while it holds the database mutex, or one file
  operation it performs while it does not. The abstract state is the history of all entries in
  whole logged groups. Steps cover the writer queue, log appends that may tear, inserts one by
  one, rotation, flush, compaction, manifest commit, deletion of obsolete files, snapshots,
  crash at any point, and recovery, which may itself crash at any point.
- **What it guarantees** (`EngineTheorems`, `EngineReads`, `EngineSnapshots`, `EngineDurability`),
  **what a recovery brings back** (`EngineReplay`) and **when it is sound** (`EngineCleanup`), and
  **what goes wrong otherwise** (`Witness`: runs from a fresh directory).
- **The database object** (`Database`, `Recover`, `Replay`, `Drain`, `Reach`, `Update`). The
  imperative methods of the database, each shown to be a sequence of engine steps, with
  termination of background work.
- **Tree** (`Version`, `Tree`, `Compaction`, `Views`). Levels, point lookup, what a compaction
  takes and puts back, and why it keeps every read.
- **Read pipeline** (`MergeSpec`, `MergingIterator`, `Scan`). Binary-heap merge, per-level
  cursor, snapshot-collapsing scan.
- **Writers** (`GroupCommit`, `WriteBatch`, `MemTable`, `SkipList`).
- **Storage** (`Wal`, `LogBytes`, `LogRun`, `Block`, `Bloom`, `TableFormat`, `Table`, `Cache`, `Checksum`, `Crc32c`,
  `Coding`, `InternalKey`, `Bytes`).

`Entry` is a key with sequence number, type and value; `View(E, key, sn)` is the specification
of a read: the newest version of the key at or below `sn` in the set `E`.

Two things can go wrong in a recovery without anyone noticing. Nothing checks that an obsolete log
was really unlinked, and a log left behind is replayed once a recovery has committed a manifest that
names log 0, so that overwritten values may go in front of newer ones. And nothing checks that the
directory could be listed, so that logs may not be replayed at all. A recovery is *sound*
(`EngineRecovery.Sound`) if the replayed logs hold, of every key in them, a version as new as any
table's and as good as the newest (`GoodReplay`), and if one that could not list the directory had
nothing to find (`NothingHidden`). Both are conditions on the disk before the step. Results about
whole runs are about those whose recoveries are sound. `NextOkIff` and `SoundIffOk` show that the
invariant needs just that, `RecoveryShows` what reads return in every case, `OldestFirstIsSound` and
`CompleteIsSound` which ways of unlinking suffice, and `StaleAfterFailedUnlink` and
`LostAfterFailedListing` are runs that fail.

## Assumptions

- One background worker. A rotation happens only while no group is in flight.
- Process crashes: completed writes survive, and only the tail of the active log can be torn.
  Rename of the manifest is atomic.
- Sequence numbers stay below 2^56 - 1; lengths and block sizes fit in 32 bits, file offsets in
  64. At least one L0 file triggers a compaction (with a trigger of 0 work is always pending),
  and an empty memtable is within its budget.
- Unlinks may fail, and so may the directory listings, that of RemoveObsoleteFiles and that of
  Recover: any obsolete file may stay, and a recovery may find no file at all. Results over runs take
  such a recovery in only where it is sound, as said above; `Recover` itself takes all of them. A
  listing succeeds or fails as a whole.
- Outcomes of other file operations, skip-list heights, table sizes and the shard hash are
  nondeterministic or parameters. So are the clock behind interval syncing and all identifiers of
  snapshots. Methods take a parameter `healthy`: if it holds, no file operation of theirs fails, and
  they are shown to succeed.

## Where code and comments disagree

- include/lsm/iterator.h:35-37 describes the merge as a linear scan. The code is a binary heap
  (src/iterator.cpp:84-107), and so is the model.
- src/db.cpp:734-740 says that a snapshot API would break the flush's collapse of versions. The
  code below it already honours snapshots, and the collapse is proved to.
- src/db.cpp:354-357 says at most two logs are ever replayed. When an open database dies there
  can be three that hold anything: the log of a flush that is installed but not committed, that of
  the memtable rotated out since, and the active one (`ThreeLogsToReplay`). `FewLogsReplayed` shows
  that there are never more, and exactly when there are three. Besides, every rotation whose new
  log could not be given its header leaves an empty log behind. After a crash during recovery, when
  the manifest names log 0, every log on disk is replayed, those left behind included.
- `last_sequence_` moves before a group's inserts (src/db.cpp:502-503, 515-520), so the answers of
  a snapshot taken in between may change (`SnapshotChanges`). `SnapshotRepeatsIff` gives the exact
  condition, on the pending operations; no group in flight is enough (`SnapshotRepeats`).
- src/db.cpp:1123-1147 goes on when a directory listing or an unlink fails. After a failed unlink of
  a log, an overwritten value can come back (`StaleAfterFailedUnlink`).
- src/db.cpp:358-368 goes on when the directory cannot be listed. Recovery then replays nothing, and
  the clean-up at its end, which lists again, unlinks the logs it has not replayed: acknowledged
  writes are lost (`LostAfterFailedListing`).

## Model

| member | source | states |
|---|---|---|
| `Crc32c.MakeTables` | src/crc32c.cpp:29-45 | Row k of the table is, for every byte, the bit-serial register after that byte and k further zero bytes. |
| `Crc32c.ExtendSoftware` | src/crc32c.cpp:64-82 | Slicing-by-8 with its byte tail returns the bit-serial reflected Castagnoli CRC, for every start value and every byte string. |
| `Crc32c.SliceEight` | src/crc32c.cpp:69-77 | One eight-byte iteration of the loop is eight bit-serial bytes. |
| `Crc32c.StepsLinear` | src/crc32c.cpp:29-45 | Any number of register steps is linear over exclusive-or; the fact the tables rest on. |
| `Crc32c.StepsInjective` | src/crc32c.cpp:29-45 | Any number of register steps is injective. |
| `Crc32c.ExtendConcat` | src/crc32c.cpp:64-82 | Extending over a and then over b is extending over a + b, wherever the split falls relative to the eight-byte loop. |
| `Crc32c.BurstDetected` | src/crc32c.cpp:64-82 | Equal-length messages that differ only within four consecutive bytes have different CRCs. |
| `Crc32c.Residue` | src/crc32c.cpp:20-82 | For every message: fed with the message and its own checksum, low byte first, the register ends at 0xb798b438, the residue of this polynomial. |
| `Crc32c.ZerosVector` | tests/test_crc32c.cpp:14-15 | 32 zero bytes have the checksum of RFC 3720, appendix B.4. |
| `Crc32c.OnesVector` | tests/test_crc32c.cpp:17-18 | So have 32 bytes of ones. |
| `Crc32c.AscendingVector` | tests/test_crc32c.cpp:20-22 | And the bytes 0 to 31. |
| `Checksums.ChecksumDetects` | src/crc32c.cpp:64-82 | On the byte strings of the file formats, a change within four consecutive bytes changes the checksum. |
| `Checksums.BitsAre` | src/crc32c.cpp:64-82 | The checksum sees each byte's own eight binary digits. |
| `Coding.LERoundTrip` | include/lsm/coding.h:14-36 | A fixed-width little-endian number decodes to itself. |
| `Coding.LEInverse` | include/lsm/coding.h:14-36 | Every byte string is the encoding of the number it decodes to, so the code is a bijection. |
| `Coding.LEDigit` | include/lsm/coding.h:14-24 | Byte i of a fixed-width number is its digit i to the base 256, low byte first. |
| `Coding.PutVarint32` | include/lsm/coding.h:50-56 | The loop appends exactly the base-128 digits of the value. |
| `Coding.VarintDigit` | include/lsm/coding.h:50-56 | Byte i of a varint carries digit i to the base 128 and a flag for more to follow, and no byte is superfluous. |
| `Coding.GetVarint32Ptr` | include/lsm/coding.h:60-74 | The loop returns value and end offset, or nothing when the encoding passes the limit or five bytes. |
| `Coding.VarintRoundTrip` | include/lsm/coding.h:50-74 | Every 32-bit value decodes to itself and to the right end offset, whatever bytes surround it. |
| `Coding.LengthPrefixedRoundTrip` | include/lsm/coding.h:41-44 | A length-prefixed string is read back whole, wherever it stands. |
| `InternalKeys.IKeyRoundTrip` | include/lsm/internal_key.h:30-62 | User key, sequence and type come back out of an internal key. |
| `InternalKeys.IKeyOrder` | include/lsm/internal_key.h:67-75 | Comparing encoded internal keys is comparing (user key ascending, tag descending). |
| `InternalKeys.IKeyInjective` | include/lsm/internal_key.h:35-44 | Equal internal keys stem from the same key, sequence and type. |
| `InternalKeys.SeekFindsNewest` | include/lsm/internal_key.h:91-95 | A seek to a lookup key lands on the newest version visible at the sequence, or shows there is none. |
| `WriteBatches.DecodeBatch` | src/write_batch.cpp:37-70 | The decode loop hands over the parsed operations up to the first fault, with that fault, including trailing bytes. |
| `WriteBatches.BatchRoundTrip` | src/write_batch.cpp:7-70 | Decoding an encoded batch delivers exactly its operations, in order, without error. |
| `WriteBatches.WriteBatch.Put` | src/write_batch.cpp:16-19 | Appends one put to the batch and nothing else. |
| `WriteBatches.WriteBatch.Delete` | src/write_batch.cpp:21-25 | Appends one tombstone with an empty value. |
| `WriteBatches.WriteBatch.Append` | src/write_batch.cpp:27-30 | Concatenates two batches, keeping both orders. |
| `WriteBatches.WriteBatch.ForEach` | src/write_batch.cpp:37-70 | A batch replays its own operations. |
| `Wal.WalWriter.Open` | src/wal.cpp:46-61 | Refuses to open twice; leaves a non-empty file as it is, torn or not; gives an empty file its header, of which a failed write leaves a part and the descriptor open. After success on an empty file or on a log, the file is a log. |
| `Wal.WalWriter.AddRecord` | src/wal.cpp:82-106 | The file grows by the bytes of the record that got out, all of them on success. A log stays a log with that record, or becomes a cut of it; an empty batch and a closed writer leave the file alone. |
| `Wal.Replay` | src/wal.cpp:153-206 | The replay loop, for every byte string: groups handed over, torn flag and error. |
| `Wal.WholeIs` | src/wal.cpp:153-206 | Counts the whole records before a cut, and not one more. |
| `Wal.PayloadVector` | src/wal.cpp:86-90 | A record of a put and a deletion, byte by byte: sequence, count, type bytes, lengths, strings. |
| `Wal.ReplayEveryCut` | src/wal.cpp:124-206 | For every list of batches and every cut of their log, replay succeeds, delivers exactly the whole records before the cut with the right sequence numbers, and reports a torn tail exactly when the cut is not at byte 0, the header end or a record boundary. |
| `Wal.DamagedRecordRejected` | src/wal.cpp:173-187 | A record damaged within four consecutive payload bytes is never delivered. |
| `LogBytes.StoredReplays` | src/wal.cpp:124-206 | From any cut of a log, replay delivers the engine's view of that log, its whole groups and its torn flag, and never an error. |
| `LogBytes.AppendStores` | src/wal.cpp:97-105 | All of a record appended to a log makes it one group longer; any part of it leaves the same groups and a torn tail. |
| `LogBytes.FreshStores` | src/wal.cpp:53-59 | A new log file, with all or part of its header, is a log without groups. |
| `LogBytes.WholeIsStored` | src/wal.cpp:97-105 | A log of whole records is a log cut nowhere. |
| `LogRuns.StoredStep` | src/db.cpp:348-1147 | Every step of the engine, with the bytes it writes (header, record, any part of either, unlink), keeps each log file a cut of a log with just the whole groups the engine has in it, and the active one whole up to where its last append ended. |
| `LogRuns.LogsAlwaysReplay` | src/wal.cpp:97-206 | Along every run whose groups fit into records, wherever writes were cut short, replaying any log file delivers the engine's groups of that log, never an error and never part of a group. |
| `LogRuns.FilesExist` | src/wal.cpp:46-105 | Every such run has bytes that go with it, which are what Recover asks for. |
| `Blocks.BlockBuilder.Add` | src/block.cpp:13-38 | The buffer, restart points and counters after one more entry are those of the longer entry list. |
| `Blocks.BlockBuilder.SharedWith` | src/block.cpp:16-21 | The loop finds the length of the common prefix. |
| `Blocks.CommonIsLongest` | src/block.cpp:16-21 | No byte more could be shared. |
| `Blocks.BlockBuilder.Finish` | src/block.cpp:40-48 | Hands over body, restart array and count, and resets. |
| `Blocks.FinishedFields` | src/block.cpp:40-75 | The trailer of a finished block gives back max(1, ceil(n / interval)) restart points and the size of the entry region. |
| `Blocks.FinishedRestart` | src/block.cpp:60-91 | Restart point j is the offset of entry j * interval, inside the entry region. |
| `Blocks.BlockReader.constructor` | src/block.cpp:60-87 | Accepts exactly the blocks whose restart array fits and points inside the entry region. |
| `Blocks.BlockReader.ParseEntryAt` | src/block.cpp:93-125 | End, corruption or an entry, for every byte string, offset and previous key. |
| `Blocks.ParseAt` | src/block.cpp:93-125 | At an entry of a built block, given the key before it (or any key at a restart point), parsing yields that entry and the offset of the next. |
| `Blocks.BlockReader.SeekToFirst` | src/block.cpp:132-135 | Lands on entry 0, or past the end of an empty block. |
| `Blocks.BlockReader.Next` | src/block.cpp:137-140 | Moves to the following entry; past the end it stays. |
| `Blocks.BlockReader.Seek` | src/block.cpp:142-166 | From any cursor state, lands on the first key at or after the target. |
| `Blocks.Drain` | src/block.cpp:13-140 | Draining a built block gives back exactly the entries, for every restart interval. |
| `Blooms.BloomHash` | src/bloom.cpp:10-40 | The mixing loop and its tail switch compute the hash defined by recursion over four-byte words. |
| `Blooms.HashVectors` | src/bloom.cpp:10-40 | Known answers of the hash, for every length of the tail. |
| `Blooms.ParameterVectors` | src/bloom.cpp:42-59 | Known answers for the distance between probes, the number of probes and the size of a filter. |
| `Blooms.AddKey` | src/bloom.cpp:61-71 | Sets exactly the bits the key probes. |
| `Blooms.Build` | src/bloom.cpp:49-76 | Exactly the probes of the given keys are set, in a filter of the stated size, and no added key is ever rejected. |
| `Blooms.CheckKey` | src/bloom.cpp:78-99 | Says maybe exactly when every probe hits, and always for a missing filter or a reserved probe count. |
| `Tables.TableBuilder.Add` | src/sstable.cpp:88-109 | The entry joins the table; blocks are closed as soon as they reach the block size and not before. |
| `Tables.TableBuilder.FlushDataBlock` | src/sstable.cpp:128-143 | Moves the open block, with checksum, to the file and notes its last key, offset and size in the index. |
| `Tables.TableBuilder.Finish` | src/sstable.cpp:145-184 | The file is the blocks, the filter of just the entries' keys at the given density, the index and the footer; the blocks hold the entries added, and smallest and largest key and count are theirs. |
| `Tables.Table.Open` | src/sstable.cpp:196-274 | Opens or rejects every byte string as footer, checksums and index parse say. |
| `Tables.ReadIndex` | src/sstable.cpp:254-266 | The index parse loop. |
| `Tables.OpenFinished` | src/sstable.cpp:145-274 | A finished table opens to exactly the index and filter it was built with. |
| `Tables.OpenedHolds` | src/sstable.cpp:88-274 | Any file the builder produces opens, and the open table holds exactly the entries added. |
| `Tables.Table.ReadBlock` | src/sstable.cpp:292-321 | Through the cache or not, the caller gets the block that is in the file, and with a cache it is cached afterwards. |
| `Tables.Table.FindBlock` | src/sstable.cpp:337-346 | Binary search finds the first block whose last key is not before the target. |
| `Tables.BlockDecides` | src/sstable.cpp:335-346 | Seeking in that one block is seeking in the whole table. |
| `Tables.Table.Get` | src/sstable.cpp:323-380 | Tells whether the table holds a version of the key at or below the sequence, whether the newest one is a tombstone, and otherwise its value; never fails on a file the builder produced. |
| `Tables.TableIterator.SeekToFirst` | src/sstable.cpp:390-393 | Lands on the first entry of the table. |
| `Tables.TableIterator.Seek` | src/sstable.cpp:395-408 | Lands on the first entry of the table at or after the target. |
| `Tables.TableIterator.Next` | src/sstable.cpp:410-420 | Moves to the next entry of the table, across block boundaries. |
| `Caches.Shard.Lookup` | src/cache.cpp:17-32 | Returns the cached block and moves it to the front, as TouchSplices says, leaving the others in their order; list and index stay consistent. |
| `Caches.Shard.Insert` | src/cache.cpp:34-66 | Keeps an existing entry; otherwise adds and evicts from the back while over budget, never the new entry. |
| `Caches.Shard.EraseFile` | src/cache.cpp:68-81 | Unlinks every entry of the file and no other. |
| `Caches.TouchSplices` | src/cache.cpp:27-31 | A use moves the one entry to the front and leaves the others in their order. |
| `Caches.TrimIsLongest` | src/cache.cpp:55-64 | What stays is the longest run of most recent entries that fits the budget, and at least one. |
| `Caches.PutIs` | src/cache.cpp:34-66 | An insert puts the key in front under the value it already had, or the new one, adds no other entry, and leaves the charge within capacity or a single entry; for a cached key, if it was so before. |
| `Caches.RunKeeps` | src/cache.cpp:17-81 | Over any sequence of operations on a cache that starts empty, keys stay distinct, the charge stays within capacity or one entry remains, and cached blocks equal direct reads. |
| `Caches.RunByLastUse` | src/cache.cpp:17-81 | Over any sequence of operations entries stand in order of their last lookup or insertion, so that eviction from the back takes the least recently used. |
| `Caches.BlockCache.Lookup` | src/cache.cpp:17-32 | A hit exactly when the key is cached, and equal to a direct read of the file; no key comes or goes, and the entry becomes the most recent of its shard. |
| `Caches.BlockCache.Insert` | src/cache.cpp:34-66 | The key is cached afterwards, as the most recent of its shard, and the handle returned equals a direct read of the file; no other key is added or changed, and no other shard. |
| `Caches.BlockCache.EraseFile` | src/cache.cpp:68-81 | From every shard just the blocks of the file go. |
| `SkipLists.SkipList.PublishHeight` | include/lsm/skiplist.h:205-211 | Publishing a height keeps every level in shape. |
| `SkipLists.SkipList.PrepareLevel` | include/lsm/skiplist.h:216-216 | Setting the new node's own link keeps every level in shape. |
| `SkipLists.SkipList.LinkLevel` | include/lsm/skiplist.h:217-217 | The publishing store adds the node to one level at its place in key order and keeps every level a sorted sublist of the one below. |
| `SkipLists.SkipList.FindGreaterOrEqual` | include/lsm/skiplist.h:179-194 | From any height: the first node not before the target, and at every level the last one before it; always ends. |
| `SkipLists.SkipList.Insert` | include/lsm/skiplist.h:196-220 | At each level below the node's height the contents become the sorted insertion of the key, above it nothing changes, for every height. |
| `SkipLists.SkipList.Contains` | include/lsm/skiplist.h:222-226 | True exactly when an equal key is present. |
| `SkipLists.InsertStepOk` | include/lsm/skiplist.h:203-219 | Every single store of an insert keeps all levels in shape and only adds nodes. |
| `SkipLists.SearchAmidInserts` | include/lsm/skiplist.h:179-220 | In every interleaving of a search with the stores of inserts, the search stops on the first node at level 0 that is not before its target, as of that moment. |
| `SkipLists.Cursor.Seek` | include/lsm/skiplist.h:62-65 | The cursor lands on the first entry at or after the target. |
| `SkipLists.Cursor.Next` | include/lsm/skiplist.h:58-61 | The cursor moves to the following entry. |
| `SkipLists.MemTable.Add` | src/memtable.cpp:7-17 | The memtable's contents become the sorted insertion of the entry. |
| `SkipLists.MemTable.Get` | src/memtable.cpp:28-50 | The newest version of the key at or below the sequence, by one seek, or nothing if there is none. |
| `SkipLists.FramedRoundTrip` | src/memtable.cpp:11-25 | The framed entry gives back internal key and value; a framed seek target is an entry with an empty value. |
| `MemTables.AddSorted` | src/memtable.cpp:7-17 | Insertion keeps internal-key order. |
| `MergeSpec.MergeContents` | src/iterator.cpp:31-53 | A merge holds exactly its children's remaining entries, each with its child. |
| `MergeSpec.MergeSorted` | src/iterator.cpp:74-82 | A merge is strictly ordered by internal key and, on a tie, by child. |
| `MergeSpec.MergeLength` | src/iterator.cpp:31-53 | A merge is as long as its children together. |
| `MergingIterators.MergingIterator.SiftDown` | src/iterator.cpp:93-107 | Repairs the heap below one slot and permutes it. |
| `MergingIterators.MergingIterator.BuildHeap` | src/iterator.cpp:84-91 | Floyd construction: a heap of exactly the live children. |
| `MergingIterators.MergingIterator.SeekToFirst` | src/iterator.cpp:31-34 | What is left to yield is the merge of all children. |
| `MergingIterators.MergingIterator.Seek` | src/iterator.cpp:36-39 | What is left to yield is the merge of the children from the target on. |
| `MergingIterators.MergingIterator.Next` | src/iterator.cpp:41-53 | Yields exactly the head of the merge, also when a child runs out. |
| `Scans.LevelIterator.Seek` | src/db.cpp:1241-1257 | Seeking the one file found by binary search is seeking the level's single run. |
| `Scans.LevelIterator.Next` | src/db.cpp:1259-1262 | Moves along the level's run, across files. |
| `Scans.DBIter.SeekToFirst` | src/db.cpp:1317-1320 | The rows to come are the collapse of the whole merged stream. |
| `Scans.DBIter.Seek` | src/db.cpp:1322-1326 | The rows to come are the collapse of the stream from the target on. |
| `Scans.DBIter.Next` | src/db.cpp:1328-1331 | Moves to the following row. |
| `Scans.DBIter.AdvanceToNextLiveKey` | src/db.cpp:1345-1365 | Stops on the first live row, skipping invisible versions and deleted keys. |
| `Scans.ScanIsView` | src/db.cpp:1299-1412 | A full scan yields, in strictly increasing key order, exactly the keys a read at the same sequence finds, with the same values. |
| `Scans.SeekIsSuffix` | src/db.cpp:1322-1326 | A seek yields exactly the suffix of the full scan from the target. |
| `Scans.SeekShows` | src/db.cpp:1322-1326 | A scan from a key yields, in order, exactly the keys at or after it that a read at the same sequence finds. |
| `Scans.LevelRun` | src/db.cpp:1259-1287 | Draining a level cursor yields the level's entries, file after file. |
| `Scans.DBIter.Drain` | src/db.cpp:1328-1365 | Stepping until the cursor is no longer valid yields all its rows. |
| `Views.FirstHitIsView` | src/db.cpp:657-704 | Sources ordered newest first: the first that knows the key gives the newest version overall. |
| `Views.RewriteKeepsView` | src/db.cpp:924-948 | Dropping shadowed versions, and tombstones with nothing below, changes no read at or above the floor. |
| `Compactions.CollapseMemTable` | src/db.cpp:742-765 | The flush loop keeps exactly the versions not hidden from every snapshot. |
| `Compactions.WriteOutputs` | src/db.cpp:924-975 | The compaction loop writes exactly the surviving versions, cut only between user keys, each file but the last full and none continued past a boundary once full. |
| `Compactions.SurvivorsSorted` | src/db.cpp:924-948 | Survivors are strictly ordered even when the inputs repeat entries. |
| `Compactions.SurvivorsExact` | src/db.cpp:924-948 | Of a stream just those versions go that have a newer one at or below the smallest snapshot and, at the bottom of the tree, tombstones at or below it. |
| `Compactions.CollapseKeepsView` | src/db.cpp:924-948 | Collapsing a stream changes no read at or above the floor, tombstones included. |
| `Versions.LowerBound` | src/db.cpp:686-695 | Binary search: the first file whose largest key is not below the key. |
| `Versions.OnlyCandidate` | src/db.cpp:682-697 | No other file of the level can hold the key. |
| `Versions.Get` | src/db.cpp:656-704 | The answer of the first source that has a visible version, sources taken newest first. |
| `Versions.GetIsView` | src/db.cpp:656-704 | On an ordered tree that answer is the newest visible version of all sources together. |
| `Versions.Hull` | src/db.cpp:855-862 | The tightest key range covering the inputs. |
| `Versions.SelectOverlapping` | src/db.cpp:863-865 | Exactly the files that meet the range, in order. |
| `Versions.SortFilesSorted` | src/db.cpp:1009-1011 | Sorting disjoint files by smallest key gives a sorted, disjoint level. |
| `Trees.AfterOk` | src/db.cpp:985-1011 | After any compaction every level below L0 is again sorted and disjoint, and L0 newest first. |
| `Trees.AfterView` | src/db.cpp:829-1024 | A compaction changes no read at or above the floor, whatever it dropped, for every key. |
| `Trees.AfterOrder` | src/db.cpp:985-1011 | Shallower sources stay at least as new as deeper ones, key by key. |
| `Trees.AfterShared` | src/db.cpp:829-1024 | An entry held by two files stays one every reader can see. |
| `Trees.AfterFiles` | src/db.cpp:998-1011 | Afterwards the files are the untouched ones in place and the outputs one level down. |
| `Trees.AddNewestOk` | src/db.cpp:789-790 | A flushed file in front of L0 keeps the tree well formed. |
| `Trees.AddNewestOrder` | src/db.cpp:789-790 | A flushed file in front of L0 keeps shallower sources at least as new as deeper ones. |
| `Drains.PickCompactionLevel` | src/db.cpp:809-827 | L0 by file count, otherwise the shallowest level with the highest score above 1, otherwise none; never the bottom level. Byte counts and budgets wrap at 64 bits, and a budget of 0 scores infinity or not-a-number. |
| `Drains.MaxBytesIs` | src/db.cpp:71-76 | The budget of level n is the base times ten to the power of n - 1, modulo 2^64. |
| `Drains.LevelBytesIs` | src/db.cpp:87-91 | The size of a level is the sum of its files' sizes, modulo 2^64. |
| `Drains.PickHasFiles` | src/db.cpp:809-827 | A picked level has files to compact and one below it. |
| `Drains.NoBudgetFirst` | src/db.cpp:809-827 | If a level has a budget of 0 and holds a byte, such a level is picked, the shallowest. |
| `Drains.CompactionProgress` | src/db.cpp:829-1024 | A compaction strictly lowers the sum over stored entries of the levels they can still move down. |
| `Drains.FlushProgress` | src/db.cpp:709-805 | A flush strictly lowers that same sum. |
| `GroupCommit.BuildBatchGroup` | src/db.cpp:453-476 | The longest prefix of the queue within budget in which no sync-demanding writer follows a leader that does not sync, batches concatenated in order. |
| `GroupCommit.GroupUnique` | src/db.cpp:453-476 | There is only one such prefix. |
| `GroupCommit.GroupSizeIs` | src/db.cpp:458-473 | A leader of up to 128 KiB takes at most another 128 KiB along, a larger one fills up to 1 MiB, and a group ends only where the queue does, at a sync its leader does not demand, or where the next batch does not fit. |
| `GroupCommit.StepOk` | src/db.cpp:478-559 | Every step of every thread keeps the queue invariant. |
| `GroupCommit.GroupCommitHolds` | src/db.cpp:478-559 | At every moment of every run: writers leave once and in order; the log is their batches in that order, numbered contiguously; whoever is told Ok is logged, and synced if asked for. |
| `GroupCommit.NothingAfterFailure` | src/db.cpp:478-559 | Over every run: from the moment an append or sync has failed, the log never changes again. |
| `GroupCommit.LogGrows` | src/db.cpp:478-559 | The log only grows at its end. |
| `EngineFront.LogGroupOk` | src/db.cpp:509-512 | Appending a group keeps the invariant. |
| `EngineFront.TearLogOk` | src/db.cpp:509-512 | A partly written record, which a crash would leave as a torn tail, keeps the invariant. |
| `EngineFront.ApplyOneOk` | src/db.cpp:514-521 | Each single insert into the memtable keeps the invariant, with readers in between. |
| `EngineFront.RotateOk` | src/db.cpp:627-639 | A rotation keeps the invariant, also while a commit is cleaning up. |
| `EngineFront.StrayLogOk` | src/db.cpp:629-632 | A rotation that fails after its log was created, with or without part of the header, keeps the invariant. |
| `EngineFront.SnapshotOk` | src/db.cpp:410-422 | Taking or releasing a snapshot keeps the invariant. |
| `EngineBack.InstallFlushOk` | src/db.cpp:789-792 | Installing a flushed table keeps the invariant, reads included. |
| `EngineBack.InstallCompactionOk` | src/db.cpp:985-1011 | Installing a compaction keeps the invariant, reads included. |
| `EngineBack.CommitCovers` | src/db.cpp:173-179 | Tables of the installed version plus the logs from the oldest live one on cover the whole history. |
| `EngineBack.WriteManifestOk` | src/db.cpp:181-237 | Renaming the new manifest into place keeps the disk recoverable to the same history. |
| `EngineBack.DropTableOk` | src/db.cpp:1123-1147 | Deleting a table no longer named keeps the disk recoverable. |
| `EngineBack.DropLogOk` | src/db.cpp:1123-1147 | Deleting any log older than the oldest live one keeps the disk recoverable. |
| `EngineRecovery.CrashOk` | src/db.cpp:348-408 | A crash at any step keeps the invariant and the history. |
| `EngineRecovery.ReplayCovers` | src/db.cpp:369-395 | Replaying the logs, flushed ones included, into one new L0 file makes the tables alone show the whole history, if the replay is a good one. |
| `EngineRecovery.BuildReplayedOk` | src/db.cpp:389-395 | Building the table of replayed entries keeps the disk recoverable, if the replay is a good one. |
| `EngineRecovery.BuildReplayedNeeds` | src/db.cpp:389-395 | And only then. |
| `EngineRecovery.BlindLoadOk` | src/db.cpp:358-368 | Going on without having listed the directory keeps the invariant if and only if there was nothing to replay and every file is below the recorded counter. |
| `EngineRecovery.CommitReplayedOk` | src/db.cpp:389-395 | The manifest naming log 0, which the flush inside recovery commits, keeps the disk recoverable although flushed logs may be replayed again. |
| `EngineRecovery.CommitOpenedOk` | src/db.cpp:397-404 | The manifest naming the new log keeps the disk recoverable. |
| `EngineRecovery.GoUpOk` | src/db.cpp:397-408 | A recovered database meets the invariant of an open one, whatever logs were left behind. |
| `EngineRecovery.NextOk` | src/db.cpp:348-1147 | Every step of the engine, crash and recovery included, keeps the invariant, unless it is a recovery step that is not sound. |
| `EngineRecovery.NextOkIff` | src/db.cpp:348-1147 | A step keeps the invariant if and only if it is sound, which is a condition on the disk before it. |
| `EngineTheorems.SoundIffOk` | src/db.cpp:348-1147 | The invariant holds all along a run if and only if its recoveries are sound. |
| `EngineReplay.RecoveryShows` | src/db.cpp:358-395 | For every disk whose tables and logs cover the history, whatever logs were left or missed. After the replayed logs have become a table, point reads are right if and only if every replayed key reads, from the replayed logs alone, as it does in the history. With nothing replayed, they are right if and only if every key in the logs that should have been reads from the tables as it does in the history, and so whenever there is nothing to replay. |
| `EngineReplay.NextReplayIff` | src/db.cpp:369-395 | In a run whose recoveries were sound so far, point reads after the next replay are right if and only if what it replays is current. |
| `EngineReplay.NextBlindIff` | src/db.cpp:358-368 | And after a recovery that could not list the directory, if and only if every key in the logs it missed reads from the tables as it does in the history. |
| `EngineCleanup.FreshIsCurrent` | src/db.cpp:358-369 | The replay is current if the logs hold the newest version of every key in them. |
| `EngineCleanup.FreshIsGood` | src/db.cpp:358-369 | And it is then a good one, from whatever log the manifest names. |
| `EngineCleanup.OldestFirstIsSound` | src/db.cpp:1123-1147 | A run in which no log with groups is unlinked while an older one is there has sound recoveries, and would from each of its states, if none of them misses anything by not listing the directory. |
| `EngineCleanup.CompleteIsSound` | src/db.cpp:1123-1147 | So has a run in which no obsolete log with groups is left whenever a commit finishes and whenever the database goes up, whatever the order. |
| `Witnesses.StaleAfterFailedUnlink` | src/db.cpp:1129-1146 | A run from a fresh directory with one failed unlink and two crashes, without any error reported, that ends with an overwritten value read back and no obsolete log left. |
| `Witnesses.LostAfterFailedListing` | src/db.cpp:358-368 | A run from a fresh directory with one crash and one recovery that could not list the directory, without any error reported, that ends with an acknowledged write lost and its log unlinked. |
| `EngineCleanup.FewLogsReplayed` | src/db.cpp:354-357 | When an open database dies, at most three logs with groups are replayed. Three if and only if an immutable memtable is waiting, the active log holds a group, and so does a log between the manifest's and that of the immutable memtable; such a log is one below the log that a commit not yet written will name, or the worker has stopped on an error. |
| `Witnesses.ThreeLogsToReplay` | src/db.cpp:254-255 | A run from a fresh directory that ends with three logs with groups to replay, without any crash. |
| `EngineTheorems.ReadsMatchHistory` | src/db.cpp:646-705 | In every state of a run with sound recoveries, a read at a live snapshot or at or above the smallest one returns the newest applied version, under any interleaving of writes, rotations, flushes and compactions. |
| `EngineTheorems.LevelsAlwaysDisjoint` | src/db.cpp:985-1011 | In every state of a run with sound recoveries levels below L0 are sorted and disjoint, and L0 is newest first. |
| `EngineTheorems.ScansMatchHistory` | src/db.cpp:1383-1412 | In every state of a run with sound recoveries a scan yields exactly the live keys and values of the applied history at its sequence, in order. |
| `EngineReads.CapturedReadsMatch` | src/db.cpp:646-705 | A read whose memtables, version and sequence were taken while no group was in flight answers, however late it reads them and however that memtable has grown and been rotated since, as the history stood then. |
| `EngineReads.CapturedScansMatch` | src/db.cpp:1383-1412 | A scan, of everything or from a key on, over sources taken while no group was in flight shows, in order, exactly the live keys and values as the history stood then, whatever the captured memtable has grown to by the time it is read. |
| `EngineSnapshots.SnapshotRepeats` | src/db.cpp:410-416 | A snapshot taken with no group in flight shows the same versions, and gives the same answers, for as long as it lives. |
| `EngineSnapshots.SnapshotRepeatsIff` | src/db.cpp:498-521 | Reads through a snapshot repeat if and only if no prefix of the operations pending when it was taken changes the value of any key: otherwise there is a run in which an answer changes. |
| `Witnesses.SnapshotChanges` | src/db.cpp:498-521 | A run from a fresh directory in which one read through a live snapshot first finds nothing and then a value. |
| `EngineSnapshots.SnapshotReadsHistory` | src/db.cpp:410-416 | Reads through such a snapshot return the newest version in the history as of when it was taken. |
| `EngineDurability.GroupsGrow` | src/db.cpp:348-408 | The record of logged groups, over which durability is stated, only grows: no step, crashes included, drops, reorders or splits one. GroupsOnDisk says that they are on disk. |
| `EngineDurability.GroupsOnDisk` | src/db.cpp:348-408 | In every state from which a recovery would be sound, the manifest's tables and the logs from its log on show the latest version of every key in the logged groups. |
| `EngineDurability.AcknowledgedSurvives` | src/db.cpp:478-559 | In every run with sound recoveries: a writer told Ok stays, with its whole group, at the same place in the log order, and in every later open state a point read of any of its keys returns the result of that operation or of a later logged one, however often the process and its recoveries crash. Without soundness this fails (StaleAfterFailedUnlink, LostAfterFailedListing). |
| `EngineDurability.ReopenedShowsWholeGroups` | src/db.cpp:348-408 | In every run with sound recoveries a reopened database shows exactly the whole groups logged so far, and its counter is at or above every one of their sequences. |
| `EngineDurability.OpenShowsWholeGroups` | src/db.cpp:646-705 | At any later moment a point read of an open database answers from the groups of all earlier incarnations and what has been applied of its own; from every group ever logged, if nothing is in flight and no write has failed. |
| `EngineDurability.NothingLoggedAfterFailure` | src/db.cpp:539-541 | Until it is reopened, a database in which an append or sync has failed logs no further group, does not rotate, and leaves the whole groups of its log as they are. |
| `Replays.ClimbsStep` | src/db.cpp:500-512 | Within each log sequence numbers ascend, across every step. |
| `Replays.LogNumbers` | src/db.cpp:358-369 | The logs to replay, each once, oldest first. |
| `Replays.ReplayLogs` | src/db.cpp:372-387 | The replay loop over the bytes of the log files, wherever a crash cut them, yields everything in the whole records of those logs in key order, and the largest sequence number. |
| `Recovering.NextNumber` | src/db.cpp:360-366 | The recorded counter, or one above the highest file found if that is higher. |
| `Recovering.LoadAndReplay` | src/db.cpp:348-387 | The manifest and the replayed logs or, if the directory could not be listed, the manifest alone. |
| `Recovering.DropLogs` | src/db.cpp:1123-1147 | Exactly the obsolete logs that can be unlinked go, in any order. |
| `Recovering.DropTables` | src/db.cpp:1123-1147 | Exactly the tables no longer named that can be unlinked go. |
| `Recovering.AnyTop` | src/db.cpp:389-395 | Whether a replay is a good one does not depend on the counter reads are made at. |
| `Recovering.ComeUpNeeds` | src/db.cpp:389-404 | If the database that came up is in order and shows the history, the replayed logs belonged in front. |
| `Recovering.Recover` | src/db.cpp:348-408 | Recovery never fails without a file error. If it lists the directory, the database that comes up is sound if and only if the replay is a good one, and then it was reached by engine steps and brings up exactly the logged groups, whichever obsolete files could not be unlinked; its tables are the manifest's with the collapsed replay in front, its counter the larger of the recorded one and the largest sequence replayed. If it does not list it, it is sound if nothing was missed, and point reads are right if and only if every key in the missed logs reads from the tables. After a failed but sound attempt it can start again. |
| `Recovering.Reopen` | src/db.cpp:348-408 | The process dies at any moment and the database is opened again: exactly the groups that reached the log whole are there, under those same conditions. |
| `Reachability.ReachedIsGood` | src/db.cpp:348-1147 | Every state reachable from a fresh directory by sound steps meets the invariant. |
| `Reachability.RecoverSound` | src/db.cpp:348-408 | Of the steps of a recovery only the one that builds the replayed table, and a load without a listing, can fail to be sound. |
| `Databases.Db.SmallestSnapshot` | src/db.cpp:424-430 | The minimum of the live snapshots and the current sequence. |
| `Databases.Db.Get` | src/db.cpp:646-705 | The newest applied version at or below the sequence. |
| `Databases.Db.NewIterator` | src/db.cpp:1383-1412 | Merges the memtables, each L0 file and each deeper level as one run. |
| `Databases.Db.Scan` | src/db.cpp:1299-1412 | The rows, in order, are exactly the keys, from the given one on, that a read at the same sequence finds, with their values. |
| `Databases.Db.GetSnapshot` | src/db.cpp:410-416 | Registers the current sequence and nothing else. |
| `Databases.Db.ReleaseSnapshot` | src/db.cpp:418-422 | Drops the snapshot and nothing else. |
| `Databases.Db.CommitVersion` | src/db.cpp:239-262 | Writes the manifest for the installed version and cleans up as far as unlinks succeed, or stops all background work. Without file errors it succeeds and leaves no obsolete file. |
| `Databases.Db.RemoveTables` | src/db.cpp:1123-1147 | Exactly the tables the version does not name go that can be unlinked, if the directory can be listed; the others are unchanged. |
| `Databases.Db.RemoveLogs` | src/db.cpp:1123-1147 | Exactly the logs below the oldest live one go that can be unlinked, in any order, if the directory can be listed; the others are unchanged. |
| `Databases.Db.FlushImmutableMemTable` | src/db.cpp:709-805 | The collapsed memtable becomes the newest L0 file, of the size its entries take, by engine steps; without file errors it succeeds. |
| `Databases.ChooseFile` | src/db.cpp:838-852 | Round robin: the first file ending after the last compaction of the level did, else the first. |
| `Databases.PickInputs` | src/db.cpp:829-877 | Inputs, overlapping files below and the bottom-most flag of a compaction. |
| `Databases.Db.DoCompaction` | src/db.cpp:829-1024 | One compaction of the chosen files at the smallest snapshot, by engine steps, into files cut where they are full; the level's cursor moves to the end of the chosen file; nothing on an empty level. Without file errors it succeeds. |
| `Databases.Db.BackgroundWorkOnce` | src/db.cpp:1034-1039 | The flush if one waits, otherwise one compaction of the level that is due, after which strictly less work remains. Without file errors it succeeds. |
| `Databases.Db.DrainBackgroundWork` | src/db.cpp:1043-1049 | Ends, with no memtable waiting and every level within budget, and always succeeds unless a file operation fails. |
| `Databases.Db.Rotate` | src/db.cpp:627-639 | Memtable and log change hands. |
| `Databases.Db.TryRotate` | src/db.cpp:627-639 | Rotates, always so without file errors, or fails with memtable and active log as they were and at most one stray log, without groups, more. |
| `Databases.Db.MakeRoomForWrite` | src/db.cpp:609-642 | With room in the memtable changes nothing. Otherwise ends with an empty memtable and the full one waiting for its flush, always so without file errors, or with an error. |
| `Databases.Db.FlushMemTable` | src/db.cpp:1077-1110 | Everything is in tables and the tree is within budget, always so without file errors, or an error is reported. |
| `Databases.ShouldSyncNow` | src/db.cpp:434-451 | A record is synced if its leader wants it, the policy is to sync every write, or the interval is over. |
| `Databases.Db.LeadGroup` | src/db.cpp:478-559 | The leader commits the group it may cover, in one record that is synced as leader and policy ask, and applies exactly its entries, or everyone concerned gets an error and nothing is applied. Without file errors and earlier failures it succeeds. |
| `Databases.Db.LeadAll` | src/db.cpp:478-559 | Leader after leader serves the whole queue in order; the latest view becomes the old one updated by the batches of those told Ok, each of whom was synced as it and the policy ask. Without file errors and earlier failures everyone is told Ok. |
| `Updates.GroupIsUpdate` | src/db.cpp:498-521 | A group numbered after everything else updates the latest view like a map. |
| `Databases.Db.Write` | src/db.cpp:478-559 | An empty batch succeeds and changes nothing. Otherwise everyone queued before and the caller, with its own demand for a sync, are served in order; the latest view is the old one updated by the batches of those told Ok, the caller included exactly when the call succeeds, and each of those was synced as it and the policy ask. Without file errors and earlier failures everyone is told Ok. |
| `Databases.Db.Put` | src/db.cpp:596-601 | On success the key reads as the value, and the record was synced if the caller overrides the policy to ask for it or the policy is to sync every write; every other key, and on failure this one too, changes only through those queued before. Without file errors and earlier failures it succeeds. |
| `Databases.Db.Delete` | src/db.cpp:603-607 | On success the key is absent, and the record was synced as for Put; every other key, and on failure this one too, changes only through those queued before. Without file errors and earlier failures it succeeds. |

## Left out

- POSIX calls, short writes and their retry loops, fsync variants: files are byte strings or abstract maps.
- Durability across power loss under interval or no syncing: it depends on the kernel.
- C++ memory ordering: skip-list concurrency is interleaved atomic loads and stores.
- The hardware CRC path, src/crc32c.cpp:84-112: intrinsics.
- The manifest's byte format and LoadManifest's parsing: the manifest is a value; encoding and sorting would repeat the patterns of the table index.
- Distribution of random heights, false-positive rate of the filter, quality of hashes.
- Arena allocation, status strings, statistics, the unused MaybeSyncWal, the background thread's wait loop.
- Blocks, tables and logs that no builder produces, beyond the checks made when they are opened or parsed.
- ParseEntryAt: takes the 32-bit sum of src/block.cpp:105 without wrap-around, which differs only on blocks no builder produces.
- Open: Tables.Table.Open takes the 64-bit sums of src/sstable.cpp:234-235 without wrap-around, which differs only on footers no builder produces.
- MakeRoomForWrite: called with no background job under way; the engine covers writers that arrive during one.
- FlushMemTable: called with no background job under way; the engine covers the other interleavings.
- LeadAll: serves a queue with no background job under way; the engine covers the other interleavings.
- Write: called with no background job and no other leader under way; the engine covers the other interleavings.
- Put: as Write.
- Delete: as Write.
- A directory listing that breaks off half way (readdir fails after some entries): recoveries see all files or none.
- PickCompactionLevel: finite scores are exact reals rather than rounded doubles.
- Logs damaged in their middle, at engine level: the byte-level reader covers them, the engine only has torn tails. One can arise only after a recovery that is not sound, if it appends to a torn log it did not find.
- Read errors of table cursors: they cannot occur on files the builder produced, so the cursor has no status.
