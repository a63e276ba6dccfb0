# Light-data indexer, server and statistics: a verified model

The repository indexes the P2TR outputs of a finalized Bitcoin chain, serves them to light clients as
compact per-block data, and measures encodings of the chain's spends. This project models the three
parts that carry its correctness and proves what each promises.

**The indexer under crashes.** `Chain` says what one valid chain is. `Indexer` applies one block to the
in-memory state (UIDs, spends, block assembly); `BlockEffect`, `PartialMemory` and `NativeOutputs` say
what that does. `Ledger` is the reference: every block applied in turn to one map. `Storage` is the
outpoint database and the archive of block files, with a journal of every state that was ever durable.
`Recovery` states what a durable state owes to the reference; `Marking`, `Durability` and `SpendCache`
prove that spent marks, durable writes and the temporary spend cache keep it; `CatchUp` is the loop of
chunks, windows and flushes, a run, and a lifetime of runs that are killed at arbitrary moments, with
`MemoryBudget` for when a window is full. `BlockErrors` says when a block is refused, `Reuse` what tracking
keys does.

**What is served.** `LightBlock` holds stored and served blocks and their validators, `StoredValidity`
what these accept, `Filtering` the derivation of a filtered response, `Serving` when it succeeds,
`Assembly` and `ServedArchive` that indexed blocks always are valid and servable. `StoredGroups` and
`ServedChain` say what a client reads in terms of the chain alone; `CutThrough`, `MovingTip` and
`ServedReplay` when replaying cut-through responses preserves the live set, and `ServedPages` that
following the pages of a request does. `TxBitmap`, `HashPacking`, `EliasDelta` and `SpentIds` are the bit
formats, `ByteCodec`, `RangeFrame`, `Paging` and `UndoPayload` the byte formats and the paging loop.

**Statistics.** `Scanner` is the scan's commit loop and its conservation laws, `ScannedUids` what it
records as spent, `CodecCosts` the spent-UID prices, `RiceCode` the code whose lengths these are, `UtxoHash`
the windowed accumulator, `Histogram` the log2 histogram.

Main results: `CatchUp.Lifetime`, `Recovery.SpentHeightsAreTrue`, `ServedChain.ClientReadsChain`,
`ServedReplay.ServedCutThroughIff`, `ServedPages.FollowedPagesPreserve`, `LightBlock.ValidationGroupSum`,
`SpentIds.AcceptedStreamIsCanonical`, `EliasDelta.ParseIsCanonical`, `HashPacking.UnpackAfterPack`,
`RangeFrame.ParseIff`, `Paging.FollowPages`, `UndoPayload.DecodeIff`, `Scanner.ScanKeepsLaws`,
`ScannedUids.SpentUidsAre`, `CodecCosts.PerBlockIsBest`, `Histogram.PercentilesIff`.

## Assumptions

- A database batch and the rename of a block file are atomic and durable in program order; a process can
  die between any two of them. The manifest is rewritten in place and may be torn.
- There is one fixed finalized chain of consecutive heights and linked hashes, below height 2^32 - 1. No
  outpoint is created or spent twice, none is spent before it is created, and a transaction does not
  spend its own outputs. The coinbase input, which every block repeats, is exempt.
- The source answers with any decoded blocks of that chain, in any order and number, or fails. A bounded
  one answers with no more than asked for; an obliging one also with exactly the blocks asked for whenever
  the chain has them. Success is promised for an obliging one, the rest for any.
- The tagged hash is an arbitrary function of the key, the event digest an arbitrary function of the
  event, the tweak a given optional value per transaction.
- A run starts from the committed UID, which turns reuse tracking off.
- A process that asks for another start height begins only once the database has recorded one.

## Where a promise fails

- A filter can leave a block with the largest 64-bit UID as its only spend, which cannot be encoded
  (`Serving.LargestUidFails`), and a valid block of unknown size that has outputs is served only when
  there is nothing to filter (exactly when a block is served: `Serving.ServedIff`).
- A cut-through tip that moves between pages can leave a spent output live (`MovingTip.MovingTipFails`;
  exactly when: `CutThrough.MovingTipIff`, and for any tips `CutThrough.CutThroughIff`).
- A stored block of unknown size can pass validation with outputs no tweak covers
  (`LightBlock.UncoveredOutputsPass`; exactly when: `LightBlock.ValidationGroupSum`).
- The percentile does not bound the largest 64-bit value (exactly when: `Histogram.PercentileBound`,
  `Histogram.PercentilesIff`).
- A 64-bit identifier does not survive packing above 60 bits (exactly when: `Scanner.PackIff`).
- The Elias-delta estimate is one bit per value above the encoder (`CodecCosts.EliasEstimate`).

## Model

| member | source | states |
|---|---|---|
| `CatchUp.Lifetime` | light-server/src/bin/light_indexer.rs:300-405 | after any number of processes, some killed between any two durable writes, every durable state there ever was has the rows, last UID and files of the reference indexer at its committed tip; the tip never moves back; unless the source is arbitrary every committed block but the first height was buried by the finality depth under a best height some process saw; the processes that are not killed and that nothing stands in the way of take the tip past what is always buried so deep, or one block further for every observation |
| `CatchUp.RunSession` | light-server/src/bin/light_indexer.rs:300-405 | one process on what the earlier ones left: every durable state up to its end or its death agrees with the reference and the tip does not fall; when it is not killed and nothing stands in the way, the tip makes the progress of a run |
| `CatchUp.SessionRises` | light-server/src/bin/light_indexer.rs:352-404 | the progress of one more process adds to that of the earlier ones |
| `CatchUp.RunCommand` | light-server/src/bin/light_indexer.rs:300-405 | a bad batch size or another start height changes nothing; on a healthy chain only the source can make a run fail, and an obliging source that has every block buried by the finality depth makes it succeed; unless the source is arbitrary only blocks buried so deep under an observed best height are committed; a run that succeeds has taken the tip past what stayed buried or one block further per observation; all its durable states agree with the reference |
| `CatchUp.FollowTip` | light-server/src/bin/light_indexer.rs:352-404 | the same for the loop over observed best heights, from a state that agrees with the reference; it succeeds under the same conditions |
| `CatchUp.OneMoreObserved` | light-server/src/bin/light_indexer.rs:352-404 | one more observation keeps both the progress and the finality statement, each said of the finality depth and the observed best heights |
| `CatchUp.FinalizedTipIff` | light-server/src/bin/light_indexer.rs:354 | the finalized tip is the highest of height zero and the heights buried by the finality depth under the best height |
| `CatchUp.CatchUpRanges` | light-server/src/bin/light_indexer.rs:423-678 | one window is committed whole or not at all; it stops short of the finalized tip only when it has the flush size or reaches the memory budget, and then with the first chunk that reaches it; only an overlong answer of an arbitrary source runs past it; it succeeds on a healthy chain with an obliging source that has the blocks up to the finalized tip |
| `CatchUp.FillWindow` | light-server/src/bin/light_indexer.rs:434-565 | the window holds what the reference produces for the blocks after the tip, and memory with the hidden rows is the reference state after them; it ends where a window must; it succeeds under the same conditions |
| `CatchUp.ExtendWindow` | light-server/src/bin/light_indexer.rs:466-566 | one chunk more, with the bytes of raw blocks and payloads counted, and whether the window has reached the memory budget |
| `MemoryBudget.EstimateIff` | light-server/src/bin/light_indexer.rs:39-48 | for all the saturating steps, the estimate reaches a budget exactly when four times the raw bytes, twice the payload bytes and 64 KiB a block do |
| `MemoryBudget.PayloadBytesAre` | light-server/src/bin/light_indexer.rs:520-530 | saturating after every payload is saturating once |
| `CatchUp.ProcessChunk` | light-server/src/bin/light_indexer.rs:466-548 | one chunk extends the window by at least one block, with the same agreement and the last block as the one the next must follow; it succeeds under the same conditions |
| `CatchUp.FetchNext` | light-server/src/bin/light_indexer.rs:470-478 | what passes validation is exactly the next blocks of the chain; what an obliging source answers passes |
| `CatchUp.ResolveAndApply` | light-server/src/bin/light_indexer.rs:507-544 | loading candidates, applying and evicting them again gives what the reference gives; on a healthy chain it succeeds |
| `CatchUp.ValidateDecodedChunk` | light-server/src/bin/light_indexer.rs:804-847 | accepts exactly the non-empty runs of consecutive heights and linked hashes that start where expected |
| `CatchUp.ChunkIsNext` | light-server/src/bin/light_indexer.rs:804-847 | blocks of a valid chain that pass are the chain's next ones |
| `CatchUp.NextIsConnected` | light-server/src/bin/light_indexer.rs:804-847 | the next blocks of a valid chain pass validation after the previous tip |
| `CatchUp.LookupSpendUidsForChunk` | light-server/src/bin/light_indexer.rs:690-721 | memory gains exactly the rows that the chunk spends and that it lacked, and these are the ones returned for eviction |
| `CatchUp.MissingOutpoints` | light-server/src/bin/light_indexer.rs:695-705 | the inputs that are neither a coinbase's nor in memory |
| `CatchUp.SortAndDedup` | light-server/src/bin/light_indexer.rs:707-713 | the same outpoints, strictly ascending |
| `CatchUp.Flush` | light-server/src/bin/light_indexer.rs:571-600 | every durable state on the way agrees with the reference; it commits the window or, on failure, nothing; on a healthy chain it succeeds |
| `CatchUp.WritePending` | light-server/src/bin/light_indexer.rs:574-577 | the window's files are written; files below the committed tip stay as they are, as does everything but the files |
| `CatchUp.MarkPending` | light-server/src/bin/light_indexer.rs:584-592 | afterwards every file up to the window's end carries the spends up to there; wherever it stops, recovery is intact; on a healthy chain it succeeds |
| `CatchUp.CommitPending` | light-server/src/bin/light_indexer.rs:594-617 | rows and tip become the reference's after the window, and the manifest names that tip |
| `CatchUp.AnnounceTip` | light-server/src/bin/light_indexer.rs:602-617 | the manifest names the committed tip; torn on the way, it changes nothing recovery relies on |
| `CatchUp.Open` | light-server/src/index_store.rs:43-60 | succeeds exactly for the recorded start height |
| `SpendCache.RestoredCacheHolds` | light-server/src/bin/light_indexer.rs:325-330 | the empty cache and the committed UID agree with the reference |
| `SpendCache.CachedBlock` | light-server/src/p2tr_indexer.rs:322-517 | with every spent row resolved, applying a block to the partial memory gives the reference's state, block and errors |
| `SpendCache.LoadedCache` | light-server/src/bin/light_indexer.rs:690-721 | candidates loaded from rows possibly older than memory are still live and resolve everything the chunk spends |
| `SpendCache.RowStillLive` | light-server/src/bin/light_indexer.rs:718-720 | a row that a later block spends has not been spent earlier in the window |
| `SpendCache.EvictedCache` | light-server/src/p2tr_indexer.rs:281-292 | dropping the loaded candidates again loses nothing, the rows still have them |
| `PartialMemory.HiddenBlock` | light-server/src/p2tr_indexer.rs:322-517 | live outpoints that a block neither spends nor creates make no difference to it, failures included |
| `Indexer.P2trIndexerState.RestoreAtUid` | light-server/src/p2tr_indexer.rs:240-247 | the given UID, an empty cache, no reuse tracking |
| `Indexer.P2trIndexerState.CacheSpendUidCandidates` | light-server/src/p2tr_indexer.rs:261-275 | only vacant outpoints are filled, from the candidates, and exactly these are returned |
| `Indexer.P2trIndexerState.EvictSpendUidCandidates` | light-server/src/p2tr_indexer.rs:281-292 | exactly the given outpoints leave the map, and as many are reported as did |
| `Indexer.P2trIndexerState.SpendTxInputs` | light-server/src/p2tr_indexer.rs:344-363 | refines the fold over a transaction's inputs, errors included |
| `Indexer.P2trIndexerState.AddTxOutputs` | light-server/src/p2tr_indexer.rs:365-453 | refines the fold over its outputs, errors included |
| `Indexer.P2trIndexerState.ScanTxs` | light-server/src/p2tr_indexer.rs:340-474 | refines the fold over the transactions, with the bitmap updated in place |
| `Indexer.P2trIndexerState.ApplyBlockWithStats` | light-server/src/p2tr_indexer.rs:322-517 | refines the block function: same new state, same produced block, same error |
| `BlockEffect.BlockChangesLive` | light-server/src/p2tr_indexer.rs:322-517 | the live map gains what was created and loses what was spent; no input stays live; every spend record is the entry that was live; created records match stored outputs by position; the stored block has the header, size and number of transactions of the block |
| `BlockEffect.BlockStaysUntracked` | light-server/src/p2tr_indexer.rs:386-392 | without reuse tracking no output is ever flagged as reused |
| `BlockErrors.RefusalIsTrue` | light-server/src/p2tr_indexer.rs:322-517 | a refused block is refused for the reason its error names: too many transactions or slots, a key missing, an index or a height out of range, or UIDs beyond the word |
| `BlockErrors.AcceptedFits` | light-server/src/p2tr_indexer.rs:322-517 | an accepted block gives none of these reasons, and the response produced with it is the one served for it |
| `Reuse.BlockFlagsReuse` | light-server/src/p2tr_indexer.rs:386-392 | with reuse tracking exactly the stored outputs whose key is known or came earlier in the block are flagged, and all native keys become known |
| `Reuse.ReusedAreOmitted` | light-server/src/index.rs:375-382 | over a chain indexed with tracking, the reuse filter omits exactly the outputs whose key an earlier native output of the chain has, besides those cut-through omits |
| `NativeOutputs.BlockNumbersNatives` | light-server/src/p2tr_indexer.rs:365-481 | native outputs take consecutive UIDs from the first one, the indexed ones are stored in order and the others are the skipped slots; the last UID grows by their number and stays below the largest word |
| `NativeOutputs.DenseOutputUids` | light-server/src/p2tr_indexer.rs:394-431 | the UID of the k-th stored output is the first UID plus the k-th slot that is not skipped |
| `Ledger.ProgramIsLawful` | light-server/src/p2tr_indexer.rs:322-517 | the program's block function has the three laws the reference machine is reasoned about with |
| `Ledger.LiveIsIndexedUnspent` | light-server/src/p2tr_indexer.rs:344-363 | on a valid chain the live map is exactly what was indexed and has not been spent |
| `Ledger.SpentRecords` | light-server/src/p2tr_indexer.rs:344-363 | a block's spend records are exactly its inputs that name indexed outputs, each with its index entry |
| `Ledger.IndexGrows` | light-server/src/p2tr_indexer.rs:433-450 | an indexed output keeps its entry for ever |
| `Ledger.LastUidCountsNatives` | light-server/src/p2tr_indexer.rs:476-481 | the last UID is the number of native outputs so far |
| `Ledger.UidCountsNativesBefore` | light-server/src/p2tr_indexer.rs:394-450 | the UID of every indexed output is one more than the number of native outputs before it in chain order |
| `Ledger.UidsDistinct` | light-server/src/p2tr_indexer.rs:394-450 | two index entries share a UID exactly when they are the same outpoint |
| `Storage.DurableStore.EnsureMeta` | light-server/src/index_store.rs:43-60 | accepts and records a first start height, refuses another one |
| `Storage.DurableStore.LookupOutpointUids` | light-server/src/index_store.rs:83-94 | every asked outpoint with a row is found, with that row, and nothing else |
| `Storage.DurableStore.CommitAppliedBlocks` | light-server/src/index_store.rs:96-148 | one durable step from the old rows and tip to the rows after every block's puts and deletes and the new tip |
| `Storage.DurableStore.WriteBlockBytes` | light-server/src/storage/files.rs:86-93 | one durable step that replaces one file |
| `Storage.DurableStore.MarkSpentOutputs` | light-server/src/storage/files.rs:99-141 | every durable state on the way has each file unmarked or fully marked; success marks all and means there was no cause to refuse; failure names its cause |
| `Storage.DurableStore.WriteManifest` | light-server/src/storage/files.rs:182-187 | the manifest may be torn before it is whole |
| `Storage.GroupMarks` | light-server/src/storage/files.rs:103-109 | the marks of each creation height in their order; fails only on a height above 32 bits |
| `Storage.PutAndDelete` | light-server/src/index_store.rs:105-135 | all puts, then all deletes |
| `Recovery.FileMarksAreTrue` | light-server/src/storage/files.rs:99-141 | in a file that holds, an output is marked at or below a height exactly when the chain spends it by then |
| `Recovery.SpentHeightsAreTrue` | light-server/src/storage/files.rs:99-141 | the same in every durable state, for every file and every height up to the committed tip, though files may carry marks from above it; every mark fits 32 bits |
| `Recovery.IndexPosition` | light-server/src/p2tr_indexer.rs:433-450 | an index entry's creation height and output index lead back to its outpoint |
| `Recovery.IndexedWhenSpent` | light-server/src/p2tr_indexer.rs:344-363 | nothing is spent before it is indexed |
| `Marking.WindowMarksExact` | light-server/src/bin/light_indexer.rs:584-592 | the marks of a window are true and cover every indexed output it spends |
| `Marking.MarkedFileHolds` | light-server/src/storage/files.rs:99-141 | true and covering marks bring a file up to the window's end and never fail |
| `Durability.MarkingKeepsDisk` | light-server/src/storage/files.rs:99-141 | a crash between two file rewrites leaves a state recovery can start from |
| `Durability.MarksNeverRefused` | light-server/src/storage/files.rs:99-141 | with a codec that accepts the reference's blocks nothing refuses a window's marks |
| `Durability.CommitReachesLive` | light-server/src/index_store.rs:96-148 | the batch takes the reference's live map at the old tip to that at the new one |
| `Durability.CommitKeepsDisk` | light-server/src/index_store.rs:96-148 | after the commit the state agrees with the reference at the new tip |
| `Assembly.WellFormedApplies` | light-server/src/p2tr_indexer.rs:322-517 | a well-formed block is applied and what is assembled passes stored validation |
| `ServedArchive.WellFormedChainRuns` | light-server/src/p2tr_indexer.rs:322-517 | a valid chain of well-formed blocks is indexed to its end |
| `ServedArchive.WellFormedIsHealthy` | light-server/src/index.rs:440-443 | behind a codec that validates, nothing but the source can stop the indexing of well-formed blocks |
| `ServedArchive.ArchiveServes` | light-server/src/index.rs:159-254 | in any durable state every committed block is served, validly, under every filter |
| `ServedArchive.AnswersAgree` | light-server/src/index.rs:159-254 | two durable states that have committed a block and the filter's tip give the same answer for it, whatever crashes led to them |
| `ServedChain.ClientReadsChain` | light-server/src/index.rs:159-281 | in any durable state the answer for a committed block names the chain's block, its predecessor, its number of transactions and the UID after all native outputs before it, and has the hash width of its size and the labels asked for; walking it gives each transaction of the block that has indexed outputs not spent by the filter's tip: its position, its tweak and the truncated hashes of exactly these outputs |
| `Filtering.DerivedNames` | light-server/src/index.rs:117-157 | filtered or not, what is served carries the header of the stored block |
| `Filtering.DerivedWidth` | light-server/src/index.rs:859-883 | what is served with outputs has the hash width of the size and the labels asked for, what is served without has none |
| `ServedChain.ServedGroupsAre` | light-server/src/index.rs:187-231 | serving the kept groups of a stored block is reading the chain's transactions with the omitted outputs left out |
| `ServedChain.StoredKeys` | light-server/src/p2tr_indexer.rs:433-450 | a block stores the keys of its indexed native outputs in chain order |
| `StoredGroups.BlockStoresGroups` | light-server/src/p2tr_indexer.rs:455-474 | exactly the transactions with stored outputs are unmarked in the bitmap and have their count and tweak stored, in order |
| `StoredGroups.DerivedWalk` | light-server/src/index.rs:159-254 | filtered or not, walking what is derived gives the kept groups |
| `Filtering.FilteringIsHomomorphic` | light-server/src/index.rs:159-281 | walking bitmap, tweaks, counts and hashes of a filtered response gives the stored groups with omitted outputs removed and empty groups dropped, each tweak at its original transaction |
| `Filtering.FilteredHashes` | light-server/src/index.rs:233-254 | the hash stream is that of the outputs that are not omitted, in dense order |
| `Filtering.FilteredSpends` | light-server/src/index.rs:233-254 | the spent stream decodes to the kept spends, ascending |
| `Filtering.FilteredUnskipped` | light-server/src/index.rs:187-231 | after each group the clear bits are the kept groups' transactions followed by those still to come |
| `Filtering.KeptOutputs` | light-server/src/index.rs:187-231 | group by group or all at once the same outputs are kept in the same order |
| `Filtering.ToFilteredResponse` | light-server/src/index.rs:159-254 | refines the derivation, errors and their order included |
| `Filtering.FilterTweak` | light-server/src/index.rs:190-224 | one group keeps the bitmap, keys and tweak entries in step |
| `Filtering.DeriveTweakTxs` | light-server/src/index.rs:256-281 | the first unskipped transactions, or which check fails |
| `Serving.ServedIff` | light-server/src/index.rs:159-254 | a valid block is served exactly when there is nothing to filter, or its size is known or it has no outputs, and the filter keeps no spend or one below the largest word |
| `Serving.LargestUidFails` | light-server/src/index.rs:651-683 | a valid block that a cut-through filter cannot serve |
| `Serving.EveryFilterServes` | light-server/src/index.rs:724-777 | spent UIDs below the largest word make every filter succeed with a valid response |
| `LightBlock.ValidationGroupSum` | light-server/src/index.rs:779-814 | for a block that passes, the tweak counts add up to the outputs exactly when its size is known or it has none |
| `LightBlock.UncoveredOutputsPass` | light-server/src/index.rs:779-814 | blocks of unknown size whose outputs no tweak covers do pass |
| `LightBlock.CeilLog2IsLeast` | light-server/src/index.rs:872-883 | the least exponent whose power of two reaches the value |
| `LightBlock.HundredLabelBits` | light-server/src/index.rs:872-883 | the stored width for many labels is 9 to 255 bits |
| `LightBlock.HashWidth` | light-server/src/index.rs:859-883 | the least width whose powers of two reach four times the size times two, or a hundred for more than two labels, capped at 255 |
| `StoredValidity.ValidLightIff` | light-server/src/index.rs:724-777 | a served block is valid exactly when a client can walk it: a tweak for every unskipped transaction, fields that fill the hash stream, no width without outputs, and spent identifiers in the announced number |
| `StoredValidity.ValidStoredIff` | light-server/src/index.rs:779-814 | a stored block is valid exactly when its counts fit, its slots are laid out as native outputs, bitmap, tweaks and counts agree, both hash streams are full and its spends are distinct, encodable and not from above it |
| `StoredValidity.LaidOutIff` | light-server/src/index.rs:824-857 | the slot checks accept exactly the skipped slots of some list of native outputs |
| `TxBitmap.ValidateBitmap` | light-server/src/index.rs:352-373 | the masked test of the last byte decides length and zero padding |
| `TxBitmap.SetSkipped` | light-server/src/index.rs:294-311 | sets one bit of a valid bitmap and keeps it valid, or changes nothing |
| `TxBitmap.CountSkipped` | light-server/src/index.rs:328-339 | the number of set bits |
| `TxBitmap.UnskippedWithout` | light-server/src/index.rs:294-311 | setting a bit removes exactly that transaction from the unskipped ones |
| `TxBitmap.SkippedAndUnskipped` | light-server/src/index.rs:328-350 | skipped and unskipped transactions make up all |
| `CutThrough.OutputOmitted` | light-server/src/index.rs:375-396 | on the archive an output is omitted exactly when the chain spends it by the tip |
| `CutThrough.SpendOmitted` | light-server/src/index.rs:398-409 | a spend is omitted exactly when the spent output is in range and the spend not above the tip |
| `CutThrough.NoTipOmits` | light-server/src/index.rs:375-409 | without a tip every output of the range whose spend the archive knows is omitted, and every spend of an output of the range |
| `CutThrough.OmittedTogether` | light-server/src/index.rs:375-409 | with one tip an output is omitted exactly when its spend is |
| `CutThrough.CutThroughIff` | light-server/src/index.rs:375-409 | for any tip per height, the cut-through replay ends with the full replay's live set if and only if no output of the range has a stray spend |
| `CutThrough.OneTipPreserves` | light-server/src/index.rs:375-409 | with one tip within the range the cut-through replay ends with the live set of the full one |
| `CutThrough.MovingTipIff` | light-server/src/index.rs:398-409 | a tip that moves between two pages preserves the live set if and only if no output of the first page is spent on the second between the tips |
| `MovingTip.MovingTipFails` | light-server/src/index.rs:398-409 | a two-block chain on which a moving tip leaves a spent output live |
| `ServedReplay.RemovedAreServed` | light-server/src/index.rs:233-254 | the identifiers decoded from a response are those of the spends that are not omitted |
| `ServedReplay.ServedCutThroughIff` | light-server/src/index.rs:375-409 | the exact condition for responses served from any durable state and any UIDs from before the range |
| `ServedReplay.ServedOneTip` | light-server/src/index.rs:375-409 | with one tip no higher than the last block, cut-through responses from any durable state preserve the live set |
| `ServedPages.SameFromEveryState` | light-server/src/index.rs:159-254 | whichever durable state a payload comes from, it carries the same identifiers |
| `ServedPages.PayloadCarries` | light-server/src/index.rs:233-254 | a payload carries the identifiers of the spends its block's committed file keeps |
| `ServedPages.FollowedPagesPreserve` | light-server/src/server.rs:208-335 | the payloads collected over the pages of an accepted cut-through request whose tip is the last height asked for, each from any durable state, replay to the live set of the full chain |
| `SpentIds.SpentIdRoundTrip` | light-server/src/index.rs:651-714 | decoding an encoding gives the identifiers in ascending order |
| `SpentIds.AcceptedStreamIsCanonical` | light-server/src/index.rs:685-714 | every accepted stream holds strictly ascending words and begins with exactly the bits the encoder emits for them |
| `SpentIds.DecodedIff` | light-server/src/index.rs:685-714 | a byte string decodes to these identifiers exactly when they ascend strictly, are words and it begins with their code, or there are none and it is empty |
| `SpentIds.SortedAscendingIffDistinct` | light-server/src/index.rs:655-674 | sorting gives a strictly ascending list exactly when nothing repeats |
| `SpentIds.EncodeSpentIds` | light-server/src/index.rs:651-683 | succeeds exactly for distinct identifiers with an encodable first one, with their encoding; otherwise names the first failed check |
| `SpentIds.DecodeSpentIds` | light-server/src/index.rs:685-714 | refines the decoding function, errors included |
| `HashPacking.UnpackAfterPack` | light-server/src/index.rs:892-929 | unpacking gives the leading digest bits of every key in order; exact length; zero padding |
| `HashPacking.PackHashes` | light-server/src/index.rs:902-929 | the bit-by-bit loop writes that stream |
| `EliasDelta.ParseAfterEncode` | light-server/src/codec/elias_delta.rs:68-118 | at any bit offset reading what was written gives the value and consumes its code word |
| `EliasDelta.ParseIsCanonical` | light-server/src/codec/elias_delta.rs:91-118 | every accepted code is the code word of the value read |
| `EliasDelta.ParseManyAfterEncode` | light-server/src/codec/elias_delta.rs:60-118 | the same for streams |
| `EliasDelta.ParseManyIsCanonical` | light-server/src/codec/elias_delta.rs:82-118 | re-encoding an accepted list reproduces the bits that were read |
| `EliasDelta.CodeWordLength` | light-server/src/codec/elias_delta.rs:68-80 | the exact length of a code word |
| `EliasDelta.BitWriter.PushBit` | light-server/src/codec/elias_delta.rs:8-18 | appends one bit and keeps the rest and the zero padding |
| `EliasDelta.BitWriter.PushBits` | light-server/src/codec/elias_delta.rs:20-24 | appends the low bits, most significant first |
| `EliasDelta.BitReader.ReadBits` | light-server/src/codec/elias_delta.rs:41-57 | the numeral at the position, or nothing when bits run out |
| `EliasDelta.EncodeOne` | light-server/src/codec/elias_delta.rs:68-80 | appends the value's code word; fails exactly for zero |
| `EliasDelta.DecodeOne` | light-server/src/codec/elias_delta.rs:91-118 | refines the parser, errors and position included |
| `EliasDelta.EncodeValues` | light-server/src/codec/elias_delta.rs:60-66 | the packed stream of code words; fails exactly when a value is zero |
| `EliasDelta.DecodeValues` | light-server/src/codec/elias_delta.rs:82-89 | refines the stream parser, errors included |
| `RangeFrame.ParseIff` | light-server/src/range.rs:4-39 | a byte string parses to these messages exactly when it is their frame |
| `RangeFrame.FrameBegins` | light-server/src/range.rs:4-16 | a frame begins with the four letters, version one and the number of messages |
| `RangeFrame.FrameRange` | light-server/src/range.rs:4-16 | frames whatever fits 32-bit lengths, refuses the rest |
| `RangeFrame.ParseRange` | light-server/src/range.rs:18-39 | refines the parser, errors included |
| `ByteCodec.ManyExact` | light-server/src/range.rs:25-35 | an exact reader repeated accepts exactly the encodings of that many valid values |
| `Paging.BlockRange` | light-server/src/server.rs:208-335 | a page is a non-empty run from the start, its body is the frame of these blocks, its tracked size is that frame's length and within the cap or one block; its last requested height is the greatest served one among the requested number from the start; it stops before that only for the cap; errors are the first failed check, a failed read or a payload too long for a frame |
| `Paging.RequestedEndIff` | light-server/src/server.rs:244-247 | the heights up to the end are those of the requested number from the start on that are served |
| `Paging.AcceptedIff` | light-server/src/server.rs:208-262 | a request is accepted exactly when its number of blocks and its cap are positive and within the limits, its start is served, and its cut-through, if any, runs from its start or the height named to a served tip that covers both and every height asked for |
| `Paging.RefusalNames` | light-server/src/server.rs:361-407 | each refusal says what is wrong with the request |
| `Paging.FramedLenIsLength` | light-server/src/server.rs:337-343 | the tracked size is the real frame length |
| `Paging.AcceptedCutTip` | light-server/src/server.rs:361-407 | an accepted request has one cut-through tip, within the archive and not below any height it covers |
| `Paging.RestIsAccepted` | light-server/src/server.rs:244-258 | the rest of an accepted request is accepted at every later tip, asks for the same heights still to come under the same cap, and has the same cut-through start and tip |
| `Paging.FollowPages` | light-server/src/server.rs:267-302 | following the next start of an accepted request, while the served tip rises, gives every height once and in order, as many as were requested or are served, if and only if each can be read and fits a frame; otherwise the error is that of some height |
| `UndoPayload.DecodeIff` | core/src/block.rs:67-166 | a byte string decodes to these outputs exactly when it is their encoding |
| `UndoPayload.SizeIff` | core/src/block.rs:131-154 | a size is read exactly where its shortest encoding stands |
| `UndoPayload.Cursor.ReadCompactSize` | core/src/block.rs:131-154 | refines the size reader, errors included |
| `UndoPayload.Cursor.ReadSpentTxOut` | core/src/block.rs:78-84 | refines the reader of one output |
| `UndoPayload.DecodeSpentTxOutsPayload` | core/src/block.rs:67-92 | refines the payload parser, errors included |
| `Histogram.Log2Hist.Record` | stats/src/histogram.rs:78-89 | the counters describe one more value |
| `Histogram.Log2Hist.Merge` | stats/src/histogram.rs:125-134 | the counters describe both lists recorded one after the other |
| `Histogram.Log2Hist.Count` | stats/src/histogram.rs:91-93 | the number of recorded values |
| `Histogram.Log2Hist.Percentile` | stats/src/histogram.rs:106-123 | for a fraction above zero and up to one, the bound of the bucket of the value that the fraction of all values reaches; while the largest word is not recorded it approximates that value within a factor of two |
| `Histogram.Log2Hist.PercentileOfRank` | stats/src/histogram.rs:110-122 | the same for a rank |
| `Histogram.TargetIsLeast` | stats/src/histogram.rs:111 | the rank of a fraction is the least number of values that makes it up |
| `Histogram.PercentilesIff` | stats/src/histogram.rs:106-123 | every rank is approximated if and only if the maximum is below the largest word |
| `Histogram.PercentileBound` | stats/src/histogram.rs:116-119 | at least the true value and less than twice it, or both zero, exactly below the largest word |
| `Histogram.EveryRankIsTaken` | stats/src/histogram.rs:106-123 | some value has every rank |
| `UtxoHash.RollingUtxoHash.NoteEvent` | stats/src/utxo_hash.rs:38-60 | the block's digest takes in one more event |
| `UtxoHash.RollingUtxoHash.FinalizeBlock` | stats/src/utxo_hash.rs:62-77 | the accumulator is the exclusive or of the digests of the last blocks within the window, and the queue holds exactly these in order |
| `UtxoHash.XorInto` | stats/src/utxo_hash.rs:80-84 | the in-place exclusive or |
| `UtxoHash.XorDropFirst` | stats/src/utxo_hash.rs:68-74 | dropping the oldest digest undoes its contribution |
| `UtxoHash.OrderIrrelevant` | stats/src/utxo_hash.rs:38-60 | the order of events within a block is irrelevant |
| `CodecCosts.PerBlockIsBest` | stats/src/block.rs:215-230 | the sum of the per-block bests is the length of Rice streams with one parameter a block, and no single parameter gives the whole run a shorter stream |
| `CodecCosts.BestIsShortest` | stats/src/block.rs:215-230 | no parameter gives a shorter Rice stream than the best total |
| `CodecCosts.SortedUidCodecStats.TotalIsBest` | stats/src/block.rs:386-455 | the accumulated total is the sum of the per-block bests and five bits a block, and that sum is at most the run's best |
| `RiceCode.RiceIff` | stats/src/block.rs:361-363 | a value is read exactly where its Rice code word stands: quotient in unary, stop bit, remainder in binary; the cost charged is its length |
| `RiceCode.RiceStreamIff` | stats/src/block.rs:361-363 | values are read exactly from their stream |
| `CodecCosts.RiceReadsBlock` | stats/src/block.rs:386-455 | a block's UIDs are read back from the anchor and the Rice stream of what it is charged, with any parameter |
| `CodecCosts.EliasReadsBlock` | stats/src/block.rs:386-455 | they are read back from the values charged under Elias-delta |
| `CodecCosts.EliasEstimate` | stats/src/block.rs:365-370 | the estimate exceeds the encoder's bits by one per value |
| `CodecCosts.EncodedLength` | stats/src/block.rs:86-100 | the byte length of the encoded stream follows from the estimate, which never undercounts it |
| `CodecCosts.CodecEstimate.Add` | stats/src/block.rs:170-190 | the sums are the lengths of the Rice streams, for each parameter, and the Elias-delta estimate with one more value |
| `CodecCosts.CodecEstimate.FindBestRice` | stats/src/block.rs:215-230 | the length of the shortest Rice stream and the first parameter that gives it |
| `CodecCosts.SortedUidCodecStats.MeasureSortedUidStream` | stats/src/block.rs:386-455 | fails exactly on a repetition or a first UID above the anchor; otherwise charges the offset and the differences |
| `Scanner.PackIff` | stats/src/scan.rs:394-413 | the type always survives packing, the identifier exactly when it fits 60 bits |
| `Scanner.CommitTx` | stats/src/scan.rs:594-699 | refines the fold over inputs, unless it is a coinbase, and outputs |
| `Scanner.CommitBlock` | stats/src/scan.rs:588-699 | refines the fold over transactions, from empty per-block lists |
| `Scanner.ScanNext` | stats/src/scan.rs:577-713 | commits and measures one block; fails only when a measurement does |
| `Scanner.Scan` | stats/src/scan.rs:577-727 | the states are those of the fold over blocks; it fails exactly when a measurement does, never on a scannable chain; the totals are those of the charged UIDs |
| `Scanner.ScanCounts` | stats/src/scan.rs:606-680 | on any blocks: one identifier per output, one spend or miss per input looked up, and exactly the unspent outputs live |
| `Scanner.ScanKeepsLaws` | stats/src/scan.rs:606-699 | on a scannable chain, after every block: outputs are spends plus live entries in total and by type, live identifiers are distinct and in range, no spend is counted as in its own transaction |
| `ScannedUids.EntriesNameOutputs` | stats/src/scan.rs:665-699 | on a scannable chain every live entry has the number and the type of the output that created it, in chain order, and outputs are counted under their types |
| `ScannedUids.SpentUidsAre` | stats/src/scan.rs:606-652 | a block of a scannable chain records, once each and as many as its spends, exactly the identifiers that were live before it or created in it and are not live after it; apart, those of P2TR outputs; and as spends within the block those it created |
| `Scanner.ScannableIsMeasurable` | stats/src/block.rs:395-409 | on a scannable chain neither the duplicate check nor the anchor subtraction fails |
| `Scanner.SpendKeepsLaws` | stats/src/scan.rs:606-652 | one input keeps the laws |
| `Scanner.CreateKeepsLaws` | stats/src/scan.rs:665-699 | one output keeps the laws |

## Left out

- Networking, IPC, REST and Esplora clients, decoding of raw blocks and frames, attaching undo data to them, tip watching: the source is a list of blocks and the observed best heights a finite list.
- `CatchUp.RunCommand`: the endless loop is modelled on any finite list of observations; waiting between them is left out.
- Reorganisations: the program indexes below a finality depth and has no undo path.
- Cap'n Proto, JSON, CSV and checkpoint encodings, and the network name in the metadata; `accepts` stands for the codec's verdict and `payloadLen` for the payload's length, used only by the memory estimate.
- The tweak's prefix byte: only the 32-byte payload is carried, so the check of its length is always met.
- Allocation with a capacity hint, also in the decoders.
- BIP 352 tweak computation, secp256k1 and SHA-256.
- Seen-key counts in the database and the live-UID counter: neither obeys a counting law after a restart.
- Log lines, timings and per-range totals, among them the number of outputs a marking updated.
- The floating-point logarithm of the hash width: the integer ceiling is modelled, so rounding is not.
- The library's sorting algorithms: sorting is an insertion sort on values.
- Stored flags other than the reuse bit.
- Unsigned counters are unbounded integers unless an overflow decides a branch: UIDs, slots, per-transaction counts, spent heights, identifiers and gaps are bounded as the program bounds them; sums of bytes, of Rice costs, of spends and of histogram counters are not.
- An output position above 2^32 in the statistics scanner, where the program would truncate it.
- Heights from 2^32 - 1 on: the largest 32-bit height is the mark of an unspent output.
- `ServedReplay.ServedCutThroughIff`: the UIDs a response adds are those of the outputs it carries hashes of; how a client recognises its own by hash, false matches included, is left out.
- `ServedPages.FollowedPagesPreserve`: `ids` stands for the client's reading of a payload, which gives the identifiers of the response it was encoded from.
- Reading the served tip and the manifest separately in one request, the manifest's fallback to a directory listing, cache headers and formats of answers other than the frame.
- LEB128, escaped Rice, Elias-Fano and delta-only totals of the codec statistics; spend classification, reuse and non-eligible counters of the scanner; its rolling hash is modelled on its own.
- The rounding of the percentile's product: the fraction is a real number.
- Hexadecimal output, mean and printing of the statistics.
- `light-server/src/prevout_store.rs` is not compiled and not part of this model.
