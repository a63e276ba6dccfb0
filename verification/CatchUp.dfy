/** Fetching, applying and flushing finalized blocks, and restarting after a crash. */
module CatchUp {
  import opened Wrappers
  import opened Words
  import opened HashPacking
  import opened LightBlock
  import opened Chain
  import opened Indexer
  import opened BlockEffect
  import opened Ledger
  import opened Storage
  import opened Recovery
  import opened Marking
  import opened Durability
  import opened SpendCache
  import opened MemoryBudget

  datatype Config = Config(
    emitStart: nat,
    finalityDepth: nat,
    fetchBatch: nat,
    flushBlocks: nat,
    memoryBudget: Usize,
    once: bool)

  datatype CatchUpError =
    | BadConfig
    | SourceFailed
    | EmptyChunk
    | WrongStart
    | Disconnected
    | HeightGap
    | BlockFailed(block: ApplyError)
    | BlockRejected
    | StoreFailed(store: StoreError)

  /** The block source failed, or its answer does not continue the chain. */
  predicate SourceFault(e: CatchUpError) {
    e.SourceFailed? || e.EmptyChunk? || e.WrongStart? || e.Disconnected? || e.HeightGap?
  }

  /** On a healthy chain only the source can be at fault. */
  ghost predicate OnlySourceFaults<T>(apply: Apply, chain: seq<Block>, accepts: StoredBlock -> bool,
                                      r: Result<T, CatchUpError>)
  {
    Healthy(apply, chain, accepts) && r.Err? ==> SourceFault(r.error)
  }

  /** Nothing stands in the way of indexing up to `height`: a healthy chain that long, and a source that answers. */
  ghost predicate Reaches(apply: Apply, chain: seq<Block>, start: nat, accepts: StoredBlock -> bool, conduct: Conduct,
                          height: nat)
  {
    conduct.Obliging? && Healthy(apply, chain, accepts) && height < start + |chain|
  }

  // ---- Fetched chunks ------------------------------------------------------------------------

  /** The heights rise by one and each block names its predecessor's hash. */
  ghost predicate Follows(previous: Block, current: Block) {
    current.height == previous.height + 1 && current.previousHash == previous.hash
  }

  ghost predicate Connected(decoded: seq<Block>, firstHeight: nat, previousHash: Option<BlockHash>) {
    && decoded != []
    && decoded[0].height == firstHeight
    && (previousHash.Some? ==> decoded[0].previousHash == previousHash.value)
    && forall i | 0 < i < |decoded| :: Follows(decoded[i - 1], decoded[i])
  }

  method ValidateDecodedChunk(decoded: seq<Block>, firstHeight: nat, previousHash: Option<BlockHash>)
    returns (r: Result<(), CatchUpError>)
    ensures r.Ok? <==> Connected(decoded, firstHeight, previousHash)
    ensures r.Err? ==> SourceFault(r.error)
  {
    if decoded == [] {
      return Err(EmptyChunk);
    }
    if decoded[0].height != firstHeight {
      return Err(WrongStart);
    }
    if previousHash.Some? && decoded[0].previousHash != previousHash.value {
      return Err(Disconnected);
    }
    for i := 1 to |decoded|
      invariant forall j | 0 < j < i :: Follows(decoded[j - 1], decoded[j])
    {
      if decoded[i].height != decoded[i - 1].height + 1 {
        assert !Follows(decoded[i - 1], decoded[i]);
        return Err(HeightGap);
      }
      if decoded[i].previousHash != decoded[i - 1].hash {
        assert !Follows(decoded[i - 1], decoded[i]);
        return Err(Disconnected);
      }
    }
    r := Ok(());
  }

  /**
   * What can be relied on of the block source. An arbitrary one answers with any blocks of the chain,
   * in any order and number; a bounded one with no more than asked for. An obliging one is bounded
   * and answers with exactly the blocks asked for whenever the chain has them all.
   */
  datatype Conduct = Arbitrary | Bounded | Obliging

  /** The chain has all of the `count` blocks from `firstHeight` on. */
  predicate HasRange(source: seq<Block>, firstHeight: nat, count: nat) {
    source != [] && source[0].height <= firstHeight && firstHeight - source[0].height + count <= |source|
  }

  function RangeOf(source: seq<Block>, firstHeight: nat, count: nat): seq<Block>
    requires HasRange(source, firstHeight, count)
  {
    var n := firstHeight - source[0].height;
    source[n..n + count]
  }

  /** The block source. Unless it is obliging it may fail, and it need not answer what it was asked. */
  method FetchChunk(source: seq<Block>, conduct: Conduct, firstHeight: nat, count: nat)
    returns (r: Result<seq<Block>, CatchUpError>)
    ensures r.Err? ==> r.error == SourceFailed
    ensures r.Ok? && !conduct.Arbitrary? ==> |r.value| <= count
    ensures r.Ok? ==> forall i | 0 <= i < |r.value| :: r.value[i] in source
    ensures conduct.Obliging? && HasRange(source, firstHeight, count) ==> r == Ok(RangeOf(source, firstHeight, count))
  {
    if conduct.Obliging? && HasRange(source, firstHeight, count) {
      return Ok(RangeOf(source, firstHeight, count));
    }
    var failed: bool := *;
    var picks: seq<nat> := *;
    if failed || (!conduct.Arbitrary? && |picks| > count)
      || !(forall i | 0 <= i < |picks| :: 0 <= picks[i] < |source|) {
      return Err(SourceFailed);
    }
    r := Ok(seq(|picks|, i requires 0 <= i < |picks| => source[picks[i]]));
  }

  /** Blocks of a valid chain that pass validation are the chain's next ones. */
  lemma {:induction false} ChunkIsNext(chain: seq<Block>, start: nat, n: nat, decoded: seq<Block>,
                                       previousHash: Option<BlockHash>)
    requires ValidChain(chain, start) && Connected(decoded, start + n, previousHash)
    requires forall i | 0 <= i < |decoded| :: decoded[i] in chain
    ensures n + |decoded| <= |chain| && decoded == chain[n..n + |decoded|]
  {
    BlockInChunk(chain, start, n, decoded, previousHash, |decoded| - 1);
    forall i | 0 <= i < |decoded|
      ensures decoded[i] == chain[n..n + |decoded|][i]
    {
      BlockInChunk(chain, start, n, decoded, previousHash, i);
    }
  }

  lemma {:induction false} BlockInChunk(chain: seq<Block>, start: nat, n: nat, decoded: seq<Block>,
                                        previousHash: Option<BlockHash>, i: nat)
    requires ValidChain(chain, start) && Connected(decoded, start + n, previousHash) && i < |decoded|
    requires forall i | 0 <= i < |decoded| :: decoded[i] in chain
    ensures n + i < |chain| && decoded[i] == chain[n + i]
  {
    HeightInChunk(decoded, start + n, previousHash, i);
    var k :| 0 <= k < |chain| && chain[k] == decoded[i];
    assert ValidAt(chain, start, k);
  }

  lemma {:induction false} HeightInChunk(decoded: seq<Block>, firstHeight: nat, previousHash: Option<BlockHash>, i: nat)
    requires Connected(decoded, firstHeight, previousHash) && i < |decoded|
    ensures decoded[i].height == firstHeight + i
  {
    if i > 0 {
      HeightInChunk(decoded, firstHeight, previousHash, i - 1);
      assert Follows(decoded[i - 1], decoded[i]);
    }
  }

  // ---- Spend candidates ------------------------------------------------------------------------

  /** The inputs of `decoded` that are neither a coinbase's nor in memory. */
  method MissingOutpoints(state: P2trIndexerState, decoded: seq<Block>) returns (outpoints: seq<OutPoint>)
    ensures InputSet(outpoints) == ChainInputs(decoded, |decoded|) - {COINBASE} - state.outpointToSpend.Keys
  {
    outpoints := [];
    for i := 0 to |decoded|
      invariant InputSet(outpoints) == ChainInputs(decoded, i) - {COINBASE} - state.outpointToSpend.Keys
    {
      var txs := decoded[i].txs;
      for t := 0 to |txs|
        invariant InputSet(outpoints)
            == ChainInputs(decoded, i) + InputsUpTo(txs, t) - {COINBASE} - state.outpointToSpend.Keys
      {
        outpoints := AddMissing(state, txs[t].inputs, outpoints);
      }
    }
  }

  method AddMissing(state: P2trIndexerState, inputs: seq<OutPoint>, start: seq<OutPoint>)
    returns (outpoints: seq<OutPoint>)
    ensures InputSet(outpoints) == InputSet(start) + (InputSet(inputs) - {COINBASE} - state.outpointToSpend.Keys)
  {
    outpoints := start;
    for v := 0 to |inputs|
      invariant InputSet(outpoints)
          == InputSet(start) + (InputSet(inputs[..v]) - {COINBASE} - state.outpointToSpend.Keys)
    {
      assert inputs[..v + 1] == inputs[..v] + [inputs[v]];
      InputSetAppend(inputs[..v], inputs[v]);
      InputSetAppend(outpoints, inputs[v]);
      if inputs[v] != COINBASE && !state.ContainsOutpoint(inputs[v]) {
        outpoints := outpoints + [inputs[v]];
      }
    }
    assert inputs[..|inputs|] == inputs;
  }

  predicate Precedes(a: OutPoint, b: OutPoint) {
    a.txid < b.txid || (a.txid == b.txid && a.vout < b.vout)
  }

  /** Inserts into an ascending list unless already present. */
  function InsertOutpoint(sorted: seq<OutPoint>, o: OutPoint): (r: seq<OutPoint>)
    ensures forall p :: p in r <==> p in sorted || p == o
  {
    if sorted == [] then [o]
    else if sorted[0] == o then sorted
    else if Precedes(o, sorted[0]) then [o] + sorted
    else [sorted[0]] + InsertOutpoint(sorted[1..], o)
  }

  ghost predicate Rising(outpoints: seq<OutPoint>) {
    forall i | 0 < i < |outpoints| :: Precedes(outpoints[i - 1], outpoints[i])
  }

  lemma {:induction false} InsertKeepsRising(sorted: seq<OutPoint>, o: OutPoint)
    requires Rising(sorted)
    ensures Rising(InsertOutpoint(sorted, o))
    ensures InsertOutpoint(sorted, o)[0] == if sorted == [] || Precedes(o, sorted[0]) then o else sorted[0]
  {
    if sorted != [] && sorted[0] != o && !Precedes(o, sorted[0]) {
      var rest := sorted[1..];
      assert rest != [] ==> Precedes(sorted[0], sorted[1]);
      forall i | 0 < i < |rest|
        ensures Precedes(rest[i - 1], rest[i])
      {
        assert Precedes(sorted[i], sorted[i + 1]);
      }
      InsertKeepsRising(rest, o);
      var r := InsertOutpoint(sorted, o);
      forall i | 0 < i < |r|
        ensures Precedes(r[i - 1], r[i])
      {
        if i > 1 { assert Precedes(r[1..][i - 2], r[1..][i - 1]); }
      }
    }
  }

  method SortAndDedup(outpoints: seq<OutPoint>) returns (sorted: seq<OutPoint>)
    ensures InputSet(sorted) == InputSet(outpoints) && Rising(sorted)
  {
    sorted := [];
    for i := 0 to |outpoints|
      invariant InputSet(sorted) == InputSet(outpoints[..i]) && Rising(sorted)
    {
      InsertKeepsRising(sorted, outpoints[i]);
      assert outpoints[..i + 1] == outpoints[..i] + [outpoints[i]];
      InputSetAppend(outpoints[..i], outpoints[i]);
      InputSetAppend(sorted, outpoints[i]);
      sorted := InsertOutpoint(sorted, outpoints[i]);
    }
    assert outpoints[..|outpoints|] == outpoints;
  }

  method LookupSpendUidsForChunk(store: DurableStore, state: P2trIndexerState, decoded: seq<Block>)
    returns (cached: seq<OutPoint>)
    modifies state
    ensures state.lastUid == old(state.lastUid) && state.seenKeys == old(state.seenKeys)
    ensures Loads(ChainInputs(decoded, |decoded|), store.disk.rows, old(state.outpointToSpend), state.outpointToSpend)
    ensures InputSet(cached) == state.outpointToSpend.Keys - old(state.outpointToSpend).Keys
  {
    var missing := MissingOutpoints(state, decoded);
    var outpoints := SortAndDedup(missing);
    if outpoints == [] {
      assert forall o | o in ChainInputs(decoded, |decoded|) && o != COINBASE ::
        o in state.outpointToSpend || o in InputSet([]);
      return [];
    }
    var found := store.LookupOutpointUids(outpoints);
    cached := state.CacheSpendUidCandidates(found);
    assert forall o :: o in InputSet(outpoints) <==> o in outpoints;
  }

  // ---- Applying a chunk ----------------------------------------------------------------------------

  method ApplyOne(state: P2trIndexerState, hash: Hasher, b: Block, ghost apply: Apply)
    returns (r: Result<Applied, CatchUpError>)
    requires Implements(apply, hash)
    modifies state
    ensures r.Ok? ==> apply(old(state.State()), b) == Ok((state.State(), r.value))
    ensures r.Err? ==> r.error.BlockFailed? && apply(old(state.State()), b) == Err(r.error.block)
  {
    assert AppliesAt(apply, hash, state.State(), b);
    var applied := state.ApplyBlockWithStats(hash, b);
    match applied {
      case Err(e) => r := Err(BlockFailed(e));
      case Ok(a) => r := Ok(a);
    }
  }

  lemma {:induction false} PendingGrows(apply: Apply, chain: seq<Block>, n0: nat, pending: seq<Applied>, a: Applied)
    requires PendingIs(apply, chain, n0, pending) && StepIs(apply, chain, n0 + |pending|, a)
    ensures PendingIs(apply, chain, n0, pending + [a])
  {
    var more := pending + [a];
    forall j | 0 <= j < |more|
      ensures StepIs(apply, chain, n0 + j, more[j])
    {
      if j < |pending| {
        assert StepIs(apply, chain, n0 + j, pending[j]);
      }
    }
  }

  /** Applies and encodes the decoded blocks; returns them after the ones already pending. */
  method ApplyChunk(state: P2trIndexerState, hash: Hasher, accepts: StoredBlock -> bool, emitStart: nat,
                    decoded: seq<Block>, start: seq<Applied>, ghost apply: Apply, ghost chain: seq<Block>,
                    ghost startHeight: nat, ghost n0: nat, ghost hidden: Refs)
    returns (r: Result<seq<Applied>, CatchUpError>)
    requires Implements(apply, hash) && Laws(apply) && ValidChain(chain, startHeight) && emitStart <= startHeight
    requires PendingIs(apply, chain, n0, start)
    requires var n := n0 + |start|;
             && n + |decoded| <= |chain| && decoded == chain[n..n + |decoded|]
             && Completes(apply, chain, n, state.State(), hidden) && Resolved(chain, hidden, n, n + |decoded|)
    modifies state
    ensures Healthy(apply, chain, accepts) ==> r.Ok?
    ensures r.Ok? ==>
      && PendingIs(apply, chain, n0, r.value) && |r.value| == |start| + |decoded|
      && Completes(apply, chain, n0 + |r.value|, state.State(), hidden)
  {
    var pending := start;
    for i := 0 to |decoded|
      invariant |pending| == |start| + i && PendingIs(apply, chain, n0, pending)
      invariant Completes(apply, chain, n0 + |pending|, state.State(), hidden)
    {
      ghost var n := n0 + |pending|;
      assert decoded[i] == chain[n];
      assert ValidAt(chain, startHeight, n);
      assert Healthy(apply, chain, accepts) ==> StepAccepted(apply, chain, accepts, n);
      if decoded[i].height >= emitStart {
        CachedBlock(apply, chain, startHeight, n, state.State(), hidden);
        var applied := ApplyOne(state, hash, decoded[i], apply);
        if applied.Err? {
          return Err(applied.error);
        }
        if !accepts(applied.value.stored) {
          return Err(BlockRejected);
        }
        PendingGrows(apply, chain, n0, pending, applied.value);
        pending := pending + [applied.value];
      }
    }
    r := Ok(pending);
  }

  // ---- Flushing ---------------------------------------------------------------------------------------

  /** The committed tip never moves backwards. */
  ghost predicate NoRollback(start: nat, journal: seq<Disk>) {
    forall i, j | 0 <= i < j < |journal| :: NotAbove(start, journal[i], journal[j])
  }

  ghost predicate NotAbove(start: nat, d: Disk, e: Disk) {
    CommittedBlocks(d, start) <= CommittedBlocks(e, start)
  }

  ghost predicate AllHold(apply: Apply, chain: seq<Block>, start: nat, journal: seq<Disk>) {
    forall i | 0 <= i < |journal| :: DiskHolds(apply, chain, start, journal[i])
  }

  ghost predicate JournalHolds(apply: Apply, chain: seq<Block>, start: nat, journal: seq<Disk>) {
    AllHold(apply, chain, start, journal) && NoRollback(start, journal)
  }

  /** Every state this store was ever in is one recovery can start from. */
  ghost predicate StoreHolds(apply: Apply, chain: seq<Block>, start: nat, store: DurableStore)
    reads store
  {
    store.Valid() && JournalHolds(apply, chain, start, store.journal)
  }

  lemma {:induction false} CurrentHolds(apply: Apply, chain: seq<Block>, start: nat, journal: seq<Disk>)
    requires JournalHolds(apply, chain, start, journal) && journal != []
    ensures DiskHolds(apply, chain, start, journal[|journal| - 1])
  {
  }

  lemma {:induction false} JournalGrows(apply: Apply, chain: seq<Block>, start: nat, journal: seq<Disk>, d: Disk)
    requires JournalHolds(apply, chain, start, journal) && DiskHolds(apply, chain, start, d)
    requires journal != [] && NotAbove(start, journal[|journal| - 1], d)
    ensures JournalHolds(apply, chain, start, journal + [d])
  {
    var more := journal + [d];
    forall i, j | 0 <= i < j < |more|
      ensures NotAbove(start, more[i], more[j])
    {
      if j == |journal| && i < j - 1 {
        assert NotAbove(start, journal[i], journal[j - 1]);
      }
    }
  }

  /** The `j`-th pending block has the `j`-th height above the tip. */
  lemma {:induction false} PendingHeight(apply: Apply, chain: seq<Block>, start: nat, n0: nat, pending: seq<Applied>,
                                         j: nat)
    requires Laws(apply) && ValidChain(chain, start) && PendingIs(apply, chain, n0, pending) && j < |pending|
    ensures pending[j].stored.height == start + n0 + j
  {
    assert StepIs(apply, chain, n0 + j, pending[j]);
    StepHeight(apply, chain, start, n0 + j);
  }

  lemma {:induction false} WrittenGrows(apply: Apply, chain: seq<Block>, start: nat, n0: nat, pending: seq<Applied>,
                                        j: nat, files: map<nat, StoredBlock>)
    requires Laws(apply) && ValidChain(chain, start) && PendingIs(apply, chain, n0, pending) && j < |pending|
    requires WrittenUpTo(pending, j, files)
    ensures WrittenUpTo(pending, j + 1, files[pending[j].stored.height := pending[j].stored])
  {
    PendingHeight(apply, chain, start, n0, pending, j);
    forall k | 0 <= k < j
      ensures pending[k].stored.height != pending[j].stored.height
    {
      PendingHeight(apply, chain, start, n0, pending, k);
    }
  }

  /** The files below `height` are still there, unchanged. */
  ghost predicate KeepsBelow(before: map<nat, StoredBlock>, after: map<nat, StoredBlock>, height: nat) {
    forall h | h in before && h < height :: h in after && after[h] == before[h]
  }

  method WritePending(store: DurableStore, pending: seq<Applied>, ghost apply: Apply, ghost chain: seq<Block>,
                      ghost start: nat)
    requires Laws(apply) && ValidChain(chain, start) && StoreHolds(apply, chain, start, store)
    requires PendingIs(apply, chain, CommittedBlocks(store.disk, start), pending)
    modifies store
    ensures old(store.journal) <= store.journal
    ensures StoreHolds(apply, chain, start, store) && WrittenUpTo(pending, |pending|, store.disk.files)
    ensures CommittedBlocks(store.disk, start) == old(CommittedBlocks(store.disk, start))
    ensures store.disk == old(store.disk).(files := store.disk.files)
    ensures KeepsBelow(old(store.disk).files, store.disk.files, start + CommittedBlocks(store.disk, start))
  {
    ghost var n0 := CommittedBlocks(store.disk, start);
    for j := 0 to |pending|
      invariant StoreHolds(apply, chain, start, store) && WrittenUpTo(pending, j, store.disk.files)
      invariant old(store.journal) <= store.journal
      invariant store.disk == old(store.disk).(files := store.disk.files)
      invariant KeepsBelow(old(store.disk).files, store.disk.files, start + n0)
    {
      PendingHeight(apply, chain, start, n0, pending, j);
      WrittenGrows(apply, chain, start, n0, pending, j, store.disk.files);
      CurrentHolds(apply, chain, start, store.journal);
      WriteKeepsDisk(apply, chain, start, store.disk, pending[j].stored.height, pending[j].stored);
      ghost var next := store.disk.(files := store.disk.files[pending[j].stored.height := pending[j].stored]);
      JournalGrows(apply, chain, start, store.journal, next);
      store.WriteBlockBytes(pending[j].stored.height, pending[j].stored);
    }
  }

  lemma {:induction false} MarkedJournalHolds(apply: Apply, chain: seq<Block>, start: nat, before: seq<Disk>, d: Disk,
                                              n: nat, marks: seq<Mark>, journal: seq<Disk>)
    requires Laws(apply) && ValidChain(chain, start) && JournalHolds(apply, chain, start, before)
        && DiskHolds(apply, chain, start, d)
    requires WindowMarked(apply, chain, start, CommittedBlocks(d, start), n, marks)
    requires before <= journal && JournalPartlyMarked(d, marks, journal, |before|)
    requires before != [] && before[|before| - 1] == d
    ensures JournalHolds(apply, chain, start, journal)
  {
    forall i | 0 <= i < |journal|
      ensures DiskHolds(apply, chain, start, journal[i])
    {
      if i < |before| {
        assert journal[i] == before[i];
      } else {
        MarkingKeepsDisk(apply, chain, start, d, n, marks, journal[i]);
      }
    }
    forall i, j | 0 <= i < j < |journal|
      ensures NotAbove(start, journal[i], journal[j])
    {
      assert i < |before| ==> journal[i] == before[i];
      assert j < |before| ==> journal[j] == before[j];
      if i < |before| - 1 { assert NotAbove(start, before[i], d); }
    }
  }

  lemma {:induction false} PendingMarksExact(apply: Apply, chain: seq<Block>, start: nat, n0: nat,
                                             pending: seq<Applied>)
    requires Laws(apply) && ValidChain(chain, start) && PendingIs(apply, chain, n0, pending)
    ensures WindowMarked(apply, chain, start, n0, n0 + |pending|, WindowMarks(pending, |pending|))
  {
    WindowMarksExact(apply, chain, start, n0, pending, |pending|);
  }

  /** The marks of a window, wherever marking stopped. */
  lemma {:induction false} AfterMarking(apply: Apply, chain: seq<Block>, start: nat, before: seq<Disk>, d: Disk,
                                        pending: seq<Applied>, marks: seq<Mark>, journal: seq<Disk>, e: Disk, n: nat)
    requires Laws(apply) && ValidChain(chain, start) && JournalHolds(apply, chain, start, before)
    requires before != [] && before[|before| - 1] == d && before <= journal
    requires PendingIs(apply, chain, CommittedBlocks(d, start), pending) && WrittenUpTo(pending, |pending|, d.files)
    requires n == CommittedBlocks(d, start) + |pending|
        && WindowMarked(apply, chain, start, CommittedBlocks(d, start), n, marks)
    requires JournalPartlyMarked(d, marks, journal, |before|)
    ensures JournalHolds(apply, chain, start, journal)
    ensures FullyMarked(d, marks, e) ==> FilesHold(apply, chain, start, n, n, e.files)
  {
    CurrentHolds(apply, chain, start, before);
    MarkedJournalHolds(apply, chain, start, before, d, n, marks, journal);
    if FullyMarked(d, marks, e) {
      MarkedFilesHold(apply, chain, start, d, pending, marks, e);
    }
  }

  /** On a healthy chain nothing refuses the marks. */
  lemma {:induction false} HealthyMarks(apply: Apply, chain: seq<Block>, start: nat, accepts: StoredBlock -> bool,
                                        before: seq<Disk>, d: Disk, pending: seq<Applied>, marks: seq<Mark>,
                                        e: StoreError, n: nat)
    requires Laws(apply) && ValidChain(chain, start) && JournalHolds(apply, chain, start, before)
    requires before != [] && before[|before| - 1] == d
    requires PendingIs(apply, chain, CommittedBlocks(d, start), pending) && WrittenUpTo(pending, |pending|, d.files)
    requires n == CommittedBlocks(d, start) + |pending|
        && WindowMarked(apply, chain, start, CommittedBlocks(d, start), n, marks)
    ensures Healthy(apply, chain, accepts) ==> !MarksRefused(accepts, d, marks, e)
  {
    CurrentHolds(apply, chain, start, before);
    if Healthy(apply, chain, accepts) {
      MarksNeverRefused(apply, chain, start, accepts, d, pending, marks, e);
    }
  }

  /** Marks what the pending blocks spend in the archived files. */
  method MarkPending(store: DurableStore, marks: seq<Mark>, ghost pending: seq<Applied>,
                     ghost apply: Apply, ghost chain: seq<Block>, ghost start: nat)
    returns (r: Result<(), CatchUpError>)
    requires Laws(apply) && ValidChain(chain, start) && StoreHolds(apply, chain, start, store)
    requires PendingIs(apply, chain, CommittedBlocks(store.disk, start), pending)
    requires WrittenUpTo(pending, |pending|, store.disk.files)
    requires var n0 := CommittedBlocks(store.disk, start); WindowMarked(apply, chain, start, n0, n0 + |pending|, marks)
    modifies store
    ensures old(store.journal) <= store.journal
    ensures StoreHolds(apply, chain, start, store)
    ensures store.disk == old(store.disk).(files := store.disk.files)
    ensures CommittedBlocks(store.disk, start) == old(CommittedBlocks(store.disk, start))
    ensures Healthy(apply, chain, store.accepts) ==> r.Ok?
    ensures r.Ok? ==> var n := old(CommittedBlocks(store.disk, start)) + |pending|;
                      FilesHold(apply, chain, start, n, n, store.disk.files)
  {
    ghost var d, journal := store.disk, store.journal;
    ghost var n := CommittedBlocks(d, start) + |pending|;
    var marked := store.MarkSpentOutputs(marks);
    if marked.Err? {
      HealthyMarks(apply, chain, start, store.accepts, journal, d, pending, marks, marked.error, n);
    }
    AfterMarking(apply, chain, start, journal, d, pending, marks, store.journal, store.disk, n);
    r := match marked case Ok(_) => Ok(()) case Err(e) => Err(StoreFailed(e));
  }

  /** Commits the pending blocks, then announces them. */
  method CommitPending(store: DurableStore, pending: seq<Applied>, tip: IndexTip,
                       ghost apply: Apply, ghost chain: seq<Block>, ghost start: nat)
    requires Laws(apply) && ValidChain(chain, start) && StoreHolds(apply, chain, start, store)
    requires pending != [] && PendingIs(apply, chain, CommittedBlocks(store.disk, start), pending)
    requires var n := CommittedBlocks(store.disk, start) + |pending|;
             tip == NewTip(apply, chain, start, n) && FilesHold(apply, chain, start, n, n, store.disk.files)
    modifies store
    ensures old(store.journal) <= store.journal
    ensures StoreHolds(apply, chain, start, store)
    ensures CommittedBlocks(store.disk, start) == old(CommittedBlocks(store.disk, start)) + |pending|
    ensures store.disk.tip == Some(tip) && store.disk.manifest == Some(ManifestTip(tip.height, tip.hash))
  {
    CurrentHolds(apply, chain, start, store.journal);
    CommitKeepsDisk(apply, chain, start, store.disk, pending);
    ghost var journal := store.journal;
    store.CommitAppliedBlocks(pending, tip);
    JournalGrows(apply, chain, start, journal, store.disk);
    AnnounceTip(store, apply, chain, start);
  }

  method AnnounceTip(store: DurableStore, ghost apply: Apply, ghost chain: seq<Block>, ghost start: nat)
    requires StoreHolds(apply, chain, start, store) && CommittedBlocks(store.disk, start) > 0
    modifies store
    ensures old(store.journal) <= store.journal
    ensures StoreHolds(apply, chain, start, store)
    ensures var tip := old(store.disk).tip.value;
            store.disk == old(store.disk).(manifest := Some(ManifestTip(tip.height, tip.hash)))
  {
    var tip := store.disk.tip.value;
    ghost var d, journal := store.disk, store.journal;
    CurrentHolds(apply, chain, start, journal);
    ManifestKeepsDisk(apply, chain, start, d);
    store.WriteManifest(ManifestTip(tip.height, tip.hash));
    ghost var torn := d.(manifest := None);
    JournalGrows(apply, chain, start, journal, torn);
    JournalGrows(apply, chain, start, journal + [torn], store.disk);
    assert store.journal == journal + [torn] + [store.disk];
  }

  /** Files first, then marks, then the database, then the manifest. */
  method Flush(store: DurableStore, pending: seq<Applied>, tip: IndexTip,
               ghost apply: Apply, ghost chain: seq<Block>, ghost start: nat)
    returns (r: Result<(), CatchUpError>)
    requires Laws(apply) && ValidChain(chain, start) && StoreHolds(apply, chain, start, store)
    requires pending != [] && PendingIs(apply, chain, CommittedBlocks(store.disk, start), pending)
    requires tip == NewTip(apply, chain, start, CommittedBlocks(store.disk, start) + |pending|)
    modifies store
    ensures old(store.journal) <= store.journal
    ensures StoreHolds(apply, chain, start, store)
    ensures Healthy(apply, chain, store.accepts) ==> r.Ok?
    ensures CommittedBlocks(store.disk, start)
        == old(CommittedBlocks(store.disk, start)) + if r.Ok? then |pending| else 0
  {
    WritePending(store, pending, apply, chain, start);
    PendingMarksExact(apply, chain, start, CommittedBlocks(store.disk, start), pending);
    r := MarkPending(store, WindowMarks(pending, |pending|), pending, apply, chain, start);
    if r.Ok? {
      CommitPending(store, pending, tip, apply, chain, start);
    }
  }

  // ---- One range ----------------------------------------------------------------------------------------

  function Least(a: nat, b: nat): nat {
    if a <= b then a else b
  }

  /** Store and memory agree with the reference at the committed tip. */
  ghost predicate SessionHolds(apply: Apply, chain: seq<Block>, start: nat, store: DurableStore,
                               state: P2trIndexerState)
    reads store, state
  {
    && StoreHolds(apply, chain, start, store)
    && var n := CommittedBlocks(store.disk, start);
       CacheHolds(apply, chain, n, n, state.State())
  }

  /** After `n` blocks are flushed, the cache's rows are the new ones. */
  lemma {:induction false} FlushedCacheHolds(apply: Apply, chain: seq<Block>, n0: nat, n: nat, m: Memory)
    requires CacheHolds(apply, chain, n0, n, m)
    ensures CacheHolds(apply, chain, n, n, m)
  {
  }

  /** The blocks of one flush window so far, and the last one's height and hash. */
  datatype Window = Window(pending: seq<Applied>, lastHeight: nat, lastHash: BlockHash)

  /** The window follows the `n0` committed blocks, and memory agrees with the reference after it. */
  ghost predicate Gathered(apply: Apply, chain: seq<Block>, start: nat, n0: nat, m: Memory, w: Window) {
    var n := n0 + |w.pending|;
    && PendingIs(apply, chain, n0, w.pending) && CacheHolds(apply, chain, n0, n, m)
    && (w.pending != [] ==> w.lastHeight == start + n - 1 && w.lastHash == chain[n - 1].hash)
  }

  /** The hash the next block must name, if any block is known. */
  ghost predicate PreviousIs(chain: seq<Block>, n: nat, previousHash: Option<BlockHash>) {
    n <= |chain| && previousHash == if n == 0 then None else Some(chain[n - 1].hash)
  }

  function PreviousTipHash(d: Disk): Option<BlockHash> {
    if d.tip.Some? then Some(d.tip.value.hash) else None
  }

  /** The committed tip is the block before the next ones. */
  lemma {:induction false} TipIsPrevious(apply: Apply, chain: seq<Block>, start: nat, d: Disk)
    requires DiskHolds(apply, chain, start, d)
    ensures PreviousIs(chain, CommittedBlocks(d, start), PreviousTipHash(d))
  {
  }

  /** The next blocks of the chain pass validation. */
  lemma {:induction false} NextIsConnected(chain: seq<Block>, start: nat, n: nat, count: nat,
                                           previousHash: Option<BlockHash>)
    requires ValidChain(chain, start) && count > 0 && n + count <= |chain| && PreviousIs(chain, n, previousHash)
    ensures HasRange(chain, start + n, count) && RangeOf(chain, start + n, count) == chain[n..n + count]
    ensures Connected(chain[n..n + count], start + n, previousHash)
  {
    assert ValidAt(chain, start, 0) && ValidAt(chain, start, n);
    var next := chain[n..n + count];
    forall i | 0 < i < |next|
      ensures Follows(next[i - 1], next[i])
    {
      assert ValidAt(chain, start, n + i) && ValidAt(chain, start, n + (i - 1));
    }
  }

  /** Fetches and validates one chunk: what passes is the chain's next blocks. */
  method FetchNext(source: seq<Block>, conduct: Conduct, chunkStart: nat, chunkCount: nat,
                   previousHash: Option<BlockHash>, ghost emitStart: nat, ghost n: nat)
    returns (r: Result<seq<Block>, CatchUpError>)
    requires ValidChain(source, emitStart) && chunkStart == emitStart + n && chunkCount > 0
    requires PreviousIs(source, n, previousHash)
    ensures r.Err? ==> SourceFault(r.error)
    ensures conduct.Obliging? && n + chunkCount <= |source| ==> r.Ok?
    ensures r.Ok? ==>
      && 0 < |r.value| && (!conduct.Arbitrary? ==> |r.value| <= chunkCount)
      && n + |r.value| <= |source| && r.value == source[n..n + |r.value|]
      && r.value[|r.value| - 1].height == emitStart + n + |r.value| - 1
  {
    if conduct.Obliging? && n + chunkCount <= |source| {
      NextIsConnected(source, emitStart, n, chunkCount, previousHash);
    }
    var fetched := FetchChunk(source, conduct, chunkStart, chunkCount);
    if fetched.Err? {
      return Err(fetched.error);
    }
    var decoded := fetched.value;
    var valid := ValidateDecodedChunk(decoded, chunkStart, previousHash);
    if valid.Err? {
      return Err(valid.error);
    }
    ChunkIsNext(source, emitStart, n, decoded, previousHash);
    HeightInChunk(decoded, chunkStart, previousHash, |decoded| - 1);
    r := Ok(decoded);
  }

  /** Loads the candidates a chunk spends, applies it, and drops the candidates again. */
  method ResolveAndApply(store: DurableStore, state: P2trIndexerState, hash: Hasher, emitHeight: nat,
                         decoded: seq<Block>, start: seq<Applied>, ghost apply: Apply, ghost source: seq<Block>,
                         ghost emitStart: nat, ghost n0: nat)
    returns (r: Result<seq<Applied>, CatchUpError>)
    requires Implements(apply, hash) && Laws(apply) && ValidChain(source, emitStart) && emitHeight <= emitStart
    requires PendingIs(apply, source, n0, start) && Runs(apply, source, n0)
        && store.disk.rows == Live(apply, source, n0)
    requires CacheHolds(apply, source, n0, n0 + |start|, state.State())
    requires var n := n0 + |start|; n + |decoded| <= |source| && decoded == source[n..n + |decoded|]
    modifies state
    ensures Healthy(apply, source, store.accepts) ==> r.Ok?
    ensures r.Ok? ==>
      && PendingIs(apply, source, n0, r.value) && |r.value| == |start| + |decoded|
      && CacheHolds(apply, source, n0, n0 + |r.value|, state.State())
  {
    ghost var n := n0 + |start|;
    ghost var to, before := n + |decoded|, state.State();
    SpannedBySlice(source, n, decoded, |decoded|);
    var cached := LookupSpendUidsForChunk(store, state, decoded);
    LoadedCache(apply, source, emitStart, n0, n, to, before, state.outpointToSpend);
    assert state.State() == before.(live := state.outpointToSpend);
    ghost var hidden := HiddenPart(apply, source, n, state.State());
    r := ApplyChunk(state, hash, store.accepts, emitHeight, decoded, start, apply, source, emitStart, n0, hidden);
    if r.Err? {
      return;
    }
    ghost var done := state.State();
    EvictedCache(apply, source, n0, to, done, hidden, InputSet(cached));
    var evicted := state.EvictSpendUidCandidates(cached);
    assert state.State() == done.(live := done.live - InputSet(cached));
  }

  /**
   * Fetches, validates, resolves and applies one chunk; everything stays in memory. Returns the
   * chunk's size and the window it extends.
   */
  method ProcessChunk(store: DurableStore, state: P2trIndexerState, cfg: Config, hash: Hasher, source: seq<Block>,
                      conduct: Conduct, chunkStart: nat, chunkCount: nat, previousHash: Option<BlockHash>,
                      window: Window, ghost apply: Apply, ghost emitStart: nat, ghost n0: nat)
    returns (r: Result<(nat, Window), CatchUpError>)
    requires Implements(apply, hash) && Laws(apply) && ValidChain(source, emitStart) && cfg.emitStart <= emitStart
    requires Runs(apply, source, n0) && store.disk.rows == Live(apply, source, n0)
    requires Gathered(apply, source, emitStart, n0, state.State(), window)
    requires chunkStart == emitStart + n0 + |window.pending| && chunkCount > 0
    requires PreviousIs(source, n0 + |window.pending|, previousHash)
    modifies state
    ensures OnlySourceFaults(apply, source, store.accepts, r)
    ensures Reaches(apply, source, emitStart, store.accepts, conduct, chunkStart + chunkCount - 1) ==> r.Ok?
    ensures r.Ok? ==>
      && Gathered(apply, source, emitStart, n0, state.State(), r.value.1)
      && r.value.1.lastHeight == emitStart + n0 + |r.value.1.pending| - 1
      && PreviousIs(source, n0 + |r.value.1.pending|, Some(r.value.1.lastHash))
      && |window.pending| < |r.value.1.pending|
      && (!conduct.Arbitrary? ==> |r.value.1.pending| <= |window.pending| + chunkCount)
      && RawSum(source, n0, n0 + |window.pending|) + r.value.0 == RawSum(source, n0, n0 + |r.value.1.pending|)
  {
    ghost var n := n0 + |window.pending|;
    var fetched := FetchNext(source, conduct, chunkStart, chunkCount, previousHash, emitStart, n);
    if fetched.Err? {
      return Err(fetched.error);
    }
    var decoded := fetched.value;
    var last := decoded[|decoded| - 1];
    RawBytesAre(source, n0, n, decoded);
    var applied := ResolveAndApply(store, state, hash, cfg.emitStart, decoded, window.pending, apply, source, emitStart,
                                   n0);
    if applied.Err? {
      return Err(applied.error);
    }
    r := Ok((RawBytes(decoded), Window(applied.value, last.height, last.hash)));
  }

  /** The tip a flush commits is the reference's. */
  lemma {:induction false} FlushTip(apply: Apply, chain: seq<Block>, start: nat, n0: nat, n: nat, m: Memory,
                                    height: nat, hash: BlockHash)
    requires 0 < n <= |chain| && CacheHolds(apply, chain, n0, n, m)
    requires height == start + n - 1 && hash == chain[n - 1].hash
    ensures IndexTip(height, hash, m.lastUid) == NewTip(apply, chain, start, n)
  {
  }

  /** The last height a flush window aims at. */
  function FlushEnd(cfg: Config, startHeight: nat, finalizedTip: nat): nat
    requires startHeight <= finalizedTip && cfg.flushBlocks > 0
  {
    startHeight + Least(finalizedTip - startHeight + 1, cfg.flushBlocks) - 1
  }

  /** The `k` blocks from `n0` on exceed the memory budget, if there is one. */
  ghost predicate OverBudget(apply: Apply, chain: seq<Block>, cfg: Config, payloadLen: StoredBlock -> nat, n0: nat,
                             k: nat)
  {
    && cfg.memoryBudget > 0 && Runs(apply, chain, n0 + k)
    && WindowMemory(apply, chain, payloadLen, n0, n0 + k) >= cfg.memoryBudget
  }

  ghost predicate JudgesAt(over: nat -> bool, apply: Apply, chain: seq<Block>, cfg: Config,
                           payloadLen: StoredBlock -> nat, n0: nat, k: nat)
  {
    over(k) == OverBudget(apply, chain, cfg, payloadLen, n0, k)
  }

  /** `over` says of every number of blocks from `n0` on whether they exceed the memory budget. */
  ghost predicate Judges(over: nat -> bool, apply: Apply, chain: seq<Block>, cfg: Config,
                         payloadLen: StoredBlock -> nat, n0: nat)
  {
    forall k :: JudgesAt(over, apply, chain, cfg, payloadLen, n0, k)
  }

  ghost function Over(apply: Apply, chain: seq<Block>, cfg: Config, payloadLen: StoredBlock -> nat, n0: nat)
    : nat -> bool
  {
    (k: nat) => OverBudget(apply, chain, cfg, payloadLen, n0, k)
  }

  lemma {:induction false} OverJudges(apply: Apply, chain: seq<Block>, cfg: Config, payloadLen: StoredBlock -> nat,
                                      n0: nat)
    ensures Judges(Over(apply, chain, cfg, payloadLen, n0), apply, chain, cfg, payloadLen, n0)
  {
  }

  /** A window of `k` blocks may go on: it is empty or not over budget. */
  ghost predicate GoesOn(over: nat -> bool, k: nat) {
    k == 0 || !over(k)
  }

  /** The window ends with a chunk, of one batch at most, that began when it might go on. */
  ghost predicate EndsWithChunk(cfg: Config, conduct: Conduct, over: nat -> bool, k: nat) {
    exists m: nat :: m < k && GoesOn(over, m) && (!conduct.Arbitrary? ==> k <= m + cfg.fetchBatch)
  }

  /**
   * Where a window ends: after `k` blocks. It stops short of the finalized tip only when it is full or
   * over the memory budget, and at the first chunk that takes it over; only an unbounded source runs past
   * the finalized tip or the window's size.
   */
  ghost predicate WindowEnds(cfg: Config, conduct: Conduct, over: nat -> bool, startHeight: nat, finalizedTip: nat,
                             k: nat)
  {
    && (startHeight + k > finalizedTip || k >= cfg.flushBlocks || over(k))
    && (!conduct.Arbitrary? ==> startHeight + k <= finalizedTip + 1 && k <= cfg.flushBlocks)
    && EndsWithChunk(cfg, conduct, over, k)
  }

  lemma {:induction false} FilledWindowEnds(cfg: Config, conduct: Conduct, over: nat -> bool, startHeight: nat,
                                            finalizedTip: nat, k: nat)
    requires startHeight <= finalizedTip && cfg.flushBlocks > 0 && EndsWithChunk(cfg, conduct, over, k)
    requires startHeight + k > FlushEnd(cfg, startHeight, finalizedTip) || over(k)
    requires !conduct.Arbitrary? ==> startHeight + k <= FlushEnd(cfg, startHeight, finalizedTip) + 1
    ensures WindowEnds(cfg, conduct, over, startHeight, finalizedTip, k)
  {
  }

  /** A window under way, with the hash the next block must name and the bytes counted so far. */
  datatype Filling = Filling(window: Window, previousHash: Option<BlockHash>, rawBytes: nat, payloadBytes: nat)

  ghost predicate Fills(apply: Apply, chain: seq<Block>, start: nat, n0: nat, payloadLen: StoredBlock -> nat,
                        m: Memory, f: Filling)
  {
    && Gathered(apply, chain, start, n0, m, f.window)
    && PreviousIs(chain, n0 + |f.window.pending|, f.previousHash)
    && Accounted(apply, chain, payloadLen, n0, n0 + |f.window.pending|, f.rawBytes, f.payloadBytes)
  }

  /** Counts the bytes a chunk adds, and says whether the window has reached the memory budget. */
  method CountChunk(cfg: Config, f: Filling, grown: Window, chunkBytes: nat, payloadLen: StoredBlock -> nat,
                    ghost apply: Apply, ghost chain: seq<Block>, ghost n0: nat, ghost over: nat -> bool)
    returns (rawBytes: nat, payloadBytes: nat, reached: bool)
    requires var k := |f.window.pending|;
             && k <= |grown.pending| && Accounted(apply, chain, payloadLen, n0, n0 + k, f.rawBytes, f.payloadBytes)
             && PendingIs(apply, chain, n0, grown.pending)
             && RawSum(chain, n0, n0 + k) + chunkBytes == RawSum(chain, n0, n0 + |grown.pending|)
    requires Judges(over, apply, chain, cfg, payloadLen, n0)
    ensures Accounted(apply, chain, payloadLen, n0, n0 + |grown.pending|, rawBytes, payloadBytes)
    ensures reached == over(|grown.pending|)
  {
    var k, blocks := |f.window.pending|, |grown.pending|;
    ChunkAccounted(apply, chain, payloadLen, n0, k, grown.pending, f.rawBytes, chunkBytes, f.payloadBytes);
    rawBytes, payloadBytes := f.rawBytes + chunkBytes, PayloadBytes(f.payloadBytes, grown.pending[k..], payloadLen);
    EstimateIff(apply, chain, payloadLen, n0, n0 + blocks, rawBytes, payloadBytes, cfg.memoryBudget);
    assert JudgesAt(over, apply, chain, cfg, payloadLen, n0, blocks);
    reached := cfg.memoryBudget > 0 && EstimatePendingMemory(rawBytes, payloadBytes, blocks) >= cfg.memoryBudget;
  }

  /** Processes one more chunk, counts its bytes, and says whether the window has reached the memory budget. */
  method ExtendWindow(store: DurableStore, state: P2trIndexerState, cfg: Config, hash: Hasher,
                      payloadLen: StoredBlock -> nat, source: seq<Block>, conduct: Conduct, chunkStart: nat,
                      chunkCount: nat, f: Filling, ghost apply: Apply, ghost emitStart: nat, ghost n0: nat,
                      ghost over: nat -> bool)
    returns (r: Result<(Filling, bool), CatchUpError>)
    requires Implements(apply, hash) && Laws(apply) && ValidChain(source, emitStart) && cfg.emitStart <= emitStart
    requires Runs(apply, source, n0) && store.disk.rows == Live(apply, source, n0)
    requires Fills(apply, source, emitStart, n0, payloadLen, state.State(), f)
    requires chunkStart == emitStart + n0 + |f.window.pending| && chunkCount > 0
    requires chunkCount <= cfg.fetchBatch && GoesOn(over, |f.window.pending|)
    requires Judges(over, apply, source, cfg, payloadLen, n0)
    modifies state
    ensures OnlySourceFaults(apply, source, store.accepts, r)
    ensures Reaches(apply, source, emitStart, store.accepts, conduct, chunkStart + chunkCount - 1) ==> r.Ok?
    ensures r.Ok? ==>
      var (next, reached) := r.value;
      && Fills(apply, source, emitStart, n0, payloadLen, state.State(), next)
      && |f.window.pending| < |next.window.pending|
      && next.window.lastHeight == emitStart + n0 + |next.window.pending| - 1
      && (!conduct.Arbitrary? ==> |next.window.pending| <= |f.window.pending| + chunkCount)
      && EndsWithChunk(cfg, conduct, over, |next.window.pending|)
      && reached == over(|next.window.pending|)
  {
    var chunk := ProcessChunk(store, state, cfg, hash, source, conduct, chunkStart, chunkCount, f.previousHash,
                              f.window, apply, emitStart, n0);
    if chunk.Err? {
      return Err(chunk.error);
    }
    var (chunkBytes, grown) := chunk.value;
    var rawBytes, payloadBytes, reached := CountChunk(cfg, f, grown, chunkBytes, payloadLen, apply, source, n0, over);
    r := Ok((Filling(grown, Some(grown.lastHash), rawBytes, payloadBytes), reached));
  }

  /** Processes chunks until the window or the memory budget is full; writes nothing. */
  method FillWindow(store: DurableStore, state: P2trIndexerState, cfg: Config, hash: Hasher,
                    payloadLen: StoredBlock -> nat, source: seq<Block>, conduct: Conduct, startHeight: nat,
                    finalizedTip: nat, ghost apply: Apply, ghost emitStart: nat, ghost n0: nat,
                    ghost over: nat -> bool)
    returns (r: Result<Window, CatchUpError>)
    requires Implements(apply, hash) && Laws(apply) && ValidChain(source, emitStart) && cfg.emitStart <= emitStart
    requires Runs(apply, source, n0) && store.disk.rows == Live(apply, source, n0)
    requires CacheHolds(apply, source, n0, n0, state.State())
    requires PreviousIs(source, n0, PreviousTipHash(store.disk))
    requires startHeight == emitStart + n0 <= finalizedTip && cfg.fetchBatch > 0 && cfg.flushBlocks > 0
    requires Judges(over, apply, source, cfg, payloadLen, n0)
    modifies state
    ensures OnlySourceFaults(apply, source, store.accepts, r)
    ensures Reaches(apply, source, emitStart, store.accepts, conduct, finalizedTip) ==> r.Ok?
    ensures r.Ok? ==>
      && Gathered(apply, source, emitStart, n0, state.State(), r.value)
      && WindowEnds(cfg, conduct, over, startHeight, finalizedTip, |r.value.pending|)
  {
    var flushEnd := FlushEnd(cfg, startHeight, finalizedTip);
    var filling := Filling(Window([], 0, 0), PreviousTipHash(store.disk), 0, 0);
    var chunkStart := startHeight;
    while chunkStart <= flushEnd
      invariant Fills(apply, source, emitStart, n0, payloadLen, state.State(), filling)
      invariant chunkStart == startHeight + |filling.window.pending|
      invariant !conduct.Arbitrary? ==> chunkStart <= flushEnd + 1
      invariant chunkStart == startHeight || EndsWithChunk(cfg, conduct, over, |filling.window.pending|)
      invariant chunkStart <= flushEnd ==> GoesOn(over, |filling.window.pending|)
      decreases flushEnd + 1 - chunkStart
    {
      var chunkCount := Least(flushEnd - chunkStart + 1, cfg.fetchBatch);
      var next := ExtendWindow(store, state, cfg, hash, payloadLen, source, conduct, chunkStart, chunkCount, filling,
                               apply, emitStart, n0, over);
      if next.Err? {
        return Err(next.error);
      }
      filling := next.value.0;
      chunkStart := filling.window.lastHeight + 1;
      if chunkStart <= flushEnd && next.value.1 {
        break;
      }
    }
    FilledWindowEnds(cfg, conduct, over, startHeight, finalizedTip, |filling.window.pending|);
    r := Ok(filling.window);
  }

  /** Fills one flush window from the committed tip and flushes it. */
  method CatchUpRanges(store: DurableStore, state: P2trIndexerState, cfg: Config, hash: Hasher,
                       payloadLen: StoredBlock -> nat, source: seq<Block>, conduct: Conduct, startHeight: nat,
                       finalizedTip: nat, ghost apply: Apply, ghost emitStart: nat)
    returns (r: Result<nat, CatchUpError>)
    requires Implements(apply, hash) && Laws(apply) && ValidChain(source, emitStart) && cfg.emitStart <= emitStart
    requires SessionHolds(apply, source, emitStart, store, state)
    requires startHeight == emitStart + CommittedBlocks(store.disk, emitStart) <= finalizedTip
    requires cfg.fetchBatch > 0 && cfg.flushBlocks > 0
    modifies store, state
    ensures old(store.journal) <= store.journal
    ensures StoreHolds(apply, source, emitStart, store)
    ensures OnlySourceFaults(apply, source, store.accepts, r)
    ensures Reaches(apply, source, emitStart, store.accepts, conduct, finalizedTip) ==> r.Ok?
    ensures r.Err? ==> CommittedBlocks(store.disk, emitStart) == old(CommittedBlocks(store.disk, emitStart))
    ensures r.Ok? ==>
      var n0 := old(CommittedBlocks(store.disk, emitStart));
      startHeight < r.value && WindowEnds(cfg, conduct, Over(apply, source, cfg, payloadLen, n0), startHeight,
                                          finalizedTip, r.value - startHeight)
    ensures r.Ok? ==>
      && SessionHolds(apply, source, emitStart, store, state)
      && r.value == emitStart + CommittedBlocks(store.disk, emitStart)
  {
    ghost var n0 := CommittedBlocks(store.disk, emitStart);
    CurrentHolds(apply, source, emitStart, store.journal);
    TipIsPrevious(apply, source, emitStart, store.disk);
    OverJudges(apply, source, cfg, payloadLen, n0);
    var window := FillWindow(store, state, cfg, hash, payloadLen, source, conduct, startHeight, finalizedTip, apply,
                             emitStart, n0, Over(apply, source, cfg, payloadLen, n0));
    if window.Err? {
      return Err(window.error);
    }
    var Window(pending, lastHeight, lastHash) := window.value;
    FlushTip(apply, source, emitStart, n0, n0 + |pending|, state.State(), lastHeight, lastHash);
    var flushed := Flush(store, pending, IndexTip(lastHeight, lastHash, state.lastUid), apply, source, emitStart);
    if flushed.Err? {
      return Err(flushed.error);
    }
    FlushedCacheHolds(apply, source, n0, n0 + |pending|, state.State());
    r := Ok(lastHeight + 1);
  }

  // ---- A run and its restarts ------------------------------------------------------------------------------

  /** A block at height `h` is final when the best height is `best`: it is buried deep enough, or the first. */
  ghost predicate Final(cfg: Config, best: nat, h: int) {
    h <= 0 || h + cfg.finalityDepth <= best
  }

  function FinalizedTip(cfg: Config, best: nat): nat {
    if best < cfg.finalityDepth then 0 else best - cfg.finalityDepth
  }

  /** The finalized tip is the highest final height. */
  lemma {:induction false} FinalizedTipIff(cfg: Config, best: nat, h: int)
    ensures h <= FinalizedTip(cfg, best) <==> Final(cfg, best, h)
  {
  }

  function NextHeight(d: Disk, start: nat): nat {
    start + CommittedBlocks(d, start)
  }

  /** The settings a run accepts on a database that begins at `start`. */
  predicate Settled(cfg: Config, start: nat) {
    cfg.fetchBatch > 0 && cfg.flushBlocks > 0 && cfg.emitStart == start
  }

  /** Height `low` is final at each of the first `n` observations. */
  ghost predicate StaysFinalized(cfg: Config, observed: seq<nat>, n: nat, low: nat)
    requires n <= |observed|
  {
    forall i | 0 <= i < n :: Final(cfg, observed[i], low)
  }

  /**
   * The next height never falls. Every observation takes it past what stays finalized or at least one
   * block further; a run that stops after one observation does the same for that one.
   */
  ghost predicate Progress(cfg: Config, observed: seq<nat>, n: nat, before: nat, after: nat)
    requires n <= |observed|
  {
    && before <= after
    && (cfg.once && n > 0 ==> after > before || !Final(cfg, observed[0], after))
    && (!cfg.once ==> forall low: nat | StaysFinalized(cfg, observed, n, low) :: after > low || after >= before + n)
  }

  /** Every block that is added was final at one of the first `n` observations. */
  ghost predicate FinalizedOnly(cfg: Config, observed: seq<nat>, n: nat, before: nat, after: nat)
    requires n <= |observed|
  {
    after <= before || exists i :: 0 <= i < n && Final(cfg, observed[i], after - 1)
  }

  lemma {:induction false} OneMoreObserved(cfg: Config, conduct: Conduct, observed: seq<nat>, n: nat, initial: nat,
                                           before: nat, after: nat)
    requires n < |observed| && Progress(cfg, observed, n, initial, before)
    requires !conduct.Arbitrary? ==> FinalizedOnly(cfg, observed, n, initial, before)
    requires cfg.once ==> n == 0 && before == initial
    requires if Final(cfg, observed[n], before)
             then after > before && (!conduct.Arbitrary? ==> Final(cfg, observed[n], after - 1))
             else after == before
    ensures Progress(cfg, observed, n + 1, initial, after)
    ensures !conduct.Arbitrary? ==> FinalizedOnly(cfg, observed, n + 1, initial, after)
    ensures cfg.once ==> Progress(cfg, observed, |observed|, initial, after)
    ensures !conduct.Arbitrary? && cfg.once ==> FinalizedOnly(cfg, observed, |observed|, initial, after)
  {
    var m := n + 1;
    forall low: nat | StaysFinalized(cfg, observed, m, low)
      ensures !cfg.once ==> after > low || after >= initial + n + 1
    {
      assert Final(cfg, observed[n], low);
      assert StaysFinalized(cfg, observed, n, low);
    }
    if !conduct.Arbitrary? && after > initial && before == after {
      var i :| 0 <= i < n && Final(cfg, observed[i], before - 1);
    }
  }

  /** Nothing stands in the way of indexing all that was observed to be final. */
  ghost predicate ReachesAll(apply: Apply, chain: seq<Block>, cfg: Config, accepts: StoredBlock -> bool,
                             conduct: Conduct, observed: seq<nat>)
  {
    forall i, h: nat | 0 <= i < |observed| && Final(cfg, observed[i], h) ::
      Reaches(apply, chain, cfg.emitStart, accepts, conduct, h)
  }

  /** Catches up with each observed best height in turn; only with the first one when asked to run once. */
  method FollowTip(store: DurableStore, state: P2trIndexerState, cfg: Config, hash: Hasher,
                   payloadLen: StoredBlock -> nat, source: seq<Block>, conduct: Conduct, startHeight: nat,
                   observed: seq<nat>, ghost apply: Apply)
    returns (r: Result<(), CatchUpError>)
    requires Implements(apply, hash) && Laws(apply) && ValidChain(source, cfg.emitStart) && Settled(cfg, cfg.emitStart)
    requires SessionHolds(apply, source, cfg.emitStart, store, state)
        && startHeight == NextHeight(store.disk, cfg.emitStart)
    modifies store, state
    ensures old(store.journal) <= store.journal
    ensures StoreHolds(apply, source, cfg.emitStart, store)
    ensures OnlySourceFaults(apply, source, store.accepts, r)
    ensures ReachesAll(apply, source, cfg, store.accepts, conduct, observed) ==> r.Ok?
    ensures r.Ok? ==> Progress(cfg, observed, |observed|, startHeight, NextHeight(store.disk, cfg.emitStart))
    ensures !conduct.Arbitrary? ==>
        FinalizedOnly(cfg, observed, |observed|, startHeight, NextHeight(store.disk, cfg.emitStart))
  {
    var nextHeight := startHeight;
    for i := 0 to |observed|
      invariant SessionHolds(apply, source, cfg.emitStart, store, state)
      invariant old(store.journal) <= store.journal
      invariant nextHeight == NextHeight(store.disk, cfg.emitStart)
      invariant cfg.once ==> i == 0 && nextHeight == startHeight
      invariant Progress(cfg, observed, i, startHeight, nextHeight)
      invariant !conduct.Arbitrary? ==> FinalizedOnly(cfg, observed, i, startHeight, nextHeight)
    {
      ghost var before := nextHeight;
      var finalizedTip := FinalizedTip(cfg, observed[i]);
      FinalizedTipIff(cfg, observed[i], finalizedTip);
      FinalizedTipIff(cfg, observed[i], nextHeight);
      if nextHeight <= finalizedTip {
        var next := CatchUpRanges(store, state, cfg, hash, payloadLen, source, conduct, nextHeight, finalizedTip, apply,
                                  cfg.emitStart);
        if next.Err? {
          return Err(next.error);
        }
        nextHeight := next.value;
      }
      FinalizedTipIff(cfg, observed[i], nextHeight - 1);
      OneMoreObserved(cfg, conduct, observed, i, startHeight, before, nextHeight);
      if cfg.once {
        return Ok(());
      }
    }
    r := Ok(());
  }

  /** One process: it restores its state and follows the observed best heights. */
  method RunCommand(store: DurableStore, cfg: Config, hash: Hasher, payloadLen: StoredBlock -> nat,
                    source: seq<Block>, conduct: Conduct, observed: seq<nat>, ghost apply: Apply, ghost start: nat)
    returns (r: Result<(), CatchUpError>)
    requires Implements(apply, hash) && Laws(apply) && ValidChain(source, start)
    requires StoreHolds(apply, source, start, store) && StartAgrees(cfg, start, store.disk)
    modifies store
    ensures old(store.journal) <= store.journal
    ensures StoreHolds(apply, source, start, store)
    ensures cfg.fetchBatch == 0 || cfg.flushBlocks == 0 || cfg.emitStart != start ==>
        r.Err? && store.disk == old(store.disk)
    ensures Settled(cfg, start) ==> OnlySourceFaults(apply, source, store.accepts, r)
    ensures Settled(cfg, start) && ReachesAll(apply, source, cfg, store.accepts, conduct, observed) ==> r.Ok?
    ensures r.Ok? ==> Progress(cfg, observed, |observed|, old(NextHeight(store.disk, start)),
        NextHeight(store.disk, start))
    ensures !conduct.Arbitrary? ==>
        FinalizedOnly(cfg, observed, |observed|, old(NextHeight(store.disk, start)), NextHeight(store.disk, start))
  {
    if cfg.fetchBatch == 0 || cfg.flushBlocks == 0 {
      return Err(BadConfig);
    }
    var meta := Open(store, cfg, apply, source, start);
    if meta.Err? {
      return meta;
    }
    CurrentHolds(apply, source, cfg.emitStart, store.journal);
    var tip := store.disk.tip;
    var nextHeight := if tip.Some? then tip.value.height + 1 else cfg.emitStart;
    var state := new P2trIndexerState.RestoreAtUid(if tip.Some? then tip.value.lastUid else 0);
    RestoredCacheHolds(apply, source, CommittedBlocks(store.disk, cfg.emitStart));
    r := FollowTip(store, state, cfg, hash, payloadLen, source, conduct, nextHeight, observed, apply);
  }

  /** The process asks for the start height the database has recorded, or the database has recorded it already. */
  ghost predicate StartAgrees(cfg: Config, start: nat, d: Disk) {
    cfg.emitStart == start || d.startHeight == Some(start)
  }

  /** Fixes the start height of a new database; refuses another one than the recorded. */
  method Open(store: DurableStore, cfg: Config, ghost apply: Apply, ghost chain: seq<Block>, ghost start: nat)
    returns (r: Result<(), CatchUpError>)
    requires StoreHolds(apply, chain, start, store) && StartAgrees(cfg, start, store.disk)
    modifies store
    ensures old(store.journal) <= store.journal
    ensures StoreHolds(apply, chain, start, store)
    ensures r.Ok? <==> cfg.emitStart == start
    ensures store.disk == if r.Ok? then old(store.disk).(startHeight := Some(start)) else old(store.disk)
  {
    ghost var d, journal := store.disk, store.journal;
    CurrentHolds(apply, chain, start, journal);
    var meta := store.EnsureMeta(cfg.emitStart);
    StartHeightKeepsDisk(apply, chain, start, d);
    JournalGrows(apply, chain, start, journal, d.(startHeight := Some(start)));
    r := match meta case Ok(_) => Ok(()) case Err(e) => Err(StoreFailed(e));
  }

  lemma {:induction false} StartHeightKeepsDisk(apply: Apply, chain: seq<Block>, start: nat, d: Disk)
    requires DiskHolds(apply, chain, start, d)
    ensures DiskHolds(apply, chain, start, d.(startHeight := Some(start)))
  {
  }

  /** The blocks below height `next` were finalized when one of the sessions observed them. */
  ghost predicate SessionFinalized(s: Session, next: nat) {
    exists j :: 0 <= j < |s.observed| && Final(s.cfg, s.observed[j], next - 1)
  }

  ghost predicate OnceFinalized(sessions: seq<Session>, n: nat, start: nat, d: Disk)
    requires n <= |sessions|
  {
    CommittedBlocks(d, start) == 0 || exists i :: 0 <= i < n && SessionFinalized(sessions[i], NextHeight(d, start))
  }

  lemma {:induction false} StaysOnceFinalized(sessions: seq<Session>, n: nat, start: nat, before: Disk, after: Disk)
    requires n < |sessions| && OnceFinalized(sessions, n, start, before)
    requires var s := sessions[n];
             && NextHeight(before, start) <= NextHeight(after, start)
             && FinalizedOnly(s.cfg, s.observed, |s.observed|, NextHeight(before, start), NextHeight(after, start))
    ensures OnceFinalized(sessions, n + 1, start, after)
  {
    var s := sessions[n];
    if NextHeight(after, start) == NextHeight(before, start) {
      if i :| 0 <= i < n && SessionFinalized(sessions[i], NextHeight(before, start)) {
      }
    } else {
      var j :| 0 <= j < |s.observed| && Final(s.cfg, s.observed[j], NextHeight(after, start) - 1);
      assert SessionFinalized(s, NextHeight(after, start));
    }
  }

  /** One process of a lifetime: its settings, the best heights it observes, and whether it is killed. */
  datatype Session = Session(cfg: Config, observed: seq<nat>, killed: bool)

  /** A process that is not killed and that nothing stands in the way of. */
  ghost predicate RunsThrough(apply: Apply, chain: seq<Block>, start: nat, accepts: StoredBlock -> bool,
                              conduct: Conduct, s: Session)
  {
    !s.killed && Settled(s.cfg, start) && ReachesAll(apply, chain, s.cfg, accepts, conduct, s.observed)
  }

  /** The observations a process acts on. */
  function ActedOn(s: Session): nat {
    if s.cfg.once && s.observed != [] then 1 else |s.observed|
  }

  /** Those of the processes among the first `n` that run through. */
  ghost function Steps(sessions: seq<Session>, through: Session -> bool, n: nat): nat
    requires n <= |sessions|
  {
    if n == 0 then 0
    else
      Steps(sessions, through, n - 1) + (if through(sessions[n - 1]) then ActedOn(sessions[n - 1]) else 0)
  }

  /** Each process among the first `n` that runs through observes `low` as final every time. */
  ghost predicate AlwaysFinal(sessions: seq<Session>, through: Session -> bool, n: nat, low: nat)
    requires n <= |sessions|
  {
    forall i | 0 <= i < n :: FinalTo(sessions[i], through, low)
  }

  ghost predicate FinalTo(s: Session, through: Session -> bool, low: nat) {
    through(s) ==> StaysFinalized(s.cfg, s.observed, |s.observed|, low)
  }

  /** The next height has passed what was always final, or has risen once for every observation acted on. */
  ghost predicate Risen(sessions: seq<Session>, through: Session -> bool, n: nat, start: nat, next: nat)
    requires n <= |sessions|
  {
    next >= start && forall low: nat | AlwaysFinal(sessions, through, n, low) ::
      next > low || next >= start + Steps(sessions, through, n)
  }

  lemma {:induction false} SessionRises(sessions: seq<Session>, through: Session -> bool, n: nat, start: nat,
                                        before: nat, after: nat)
    requires n < |sessions| && Risen(sessions, through, n, start, before) && before <= after
    requires through(sessions[n]) ==>
        Progress(sessions[n].cfg, sessions[n].observed, |sessions[n].observed|, before, after)
    ensures Risen(sessions, through, n + 1, start, after)
  {
    var s, m := sessions[n], n + 1;
    forall low: nat | AlwaysFinal(sessions, through, m, low)
      ensures after > low || after >= start + Steps(sessions, through, m)
    {
      assert AlwaysFinal(sessions, through, n, low);
      assert FinalTo(s, through, low);
    }
  }

  /** What is left when a process is killed at some moment, or when it is not. */
  method Survivors(killed: bool, journal: seq<Disk>) returns (survived: seq<Disk>)
    requires journal != []
    ensures 0 < |survived| <= |journal| && survived == journal[..|survived|]
    ensures !killed ==> survived == journal
  {
    if !killed {
      return journal;
    }
    var moment: nat := *;
    survived := journal[..moment % |journal| + 1];
  }

  /** Runs one process on what is left of the earlier ones; returns the durable states up to its end. */
  method RunSession(session: Session, accepts: StoredBlock -> bool, hash: Hasher, payloadLen: StoredBlock -> nat,
                    source: seq<Block>, conduct: Conduct, disk: Disk, ghost apply: Apply, ghost start: nat)
    returns (survived: seq<Disk>)
    requires Implements(apply, hash) && Laws(apply) && ValidChain(source, start)
        && DiskHolds(apply, source, start, disk)
    requires StartAgrees(session.cfg, start, disk)
    ensures survived != [] && survived[0] == disk && JournalHolds(apply, source, start, survived)
    ensures var (before, after) := (NextHeight(disk, start), NextHeight(survived[|survived| - 1], start));
            && before <= after
            && (!conduct.Arbitrary? ==> FinalizedOnly(session.cfg, session.observed, |session.observed|, before, after))
            && (RunsThrough(apply, source, start, accepts, conduct, session) ==>
                  Progress(session.cfg, session.observed, |session.observed|, before, after))
  {
    var store := new DurableStore(accepts, disk);
    var outcome := RunCommand(store, session.cfg, hash, payloadLen, source, conduct, session.observed, apply, start);
    survived := Survivors(session.killed, store.journal);
    SurvivorsHold(apply, source, start, store.journal, |survived|);
  }

  /** The first durable states of a process are as good as all of them, and no higher. */
  lemma {:induction false} SurvivorsHold(apply: Apply, chain: seq<Block>, start: nat, journal: seq<Disk>, n: nat)
    requires JournalHolds(apply, chain, start, journal) && 0 < n <= |journal|
    ensures JournalHolds(apply, chain, start, journal[..n])
    ensures NotAbove(start, journal[0], journal[n - 1]) && NotAbove(start, journal[n - 1], journal[|journal| - 1])
  {
    var kept := journal[..n];
    forall i, j | 0 <= i < j < n
      ensures NotAbove(start, kept[i], kept[j])
    {
      assert NotAbove(start, journal[i], journal[j]);
    }
    assert n > 1 ==> NotAbove(start, journal[0], journal[n - 1]);
    assert n < |journal| ==> NotAbove(start, journal[n - 1], journal[|journal| - 1]);
  }

  /**
   * Any number of processes one after another, some killed at an arbitrary moment: the durable writes
   * up to that moment survive, the later ones never happen. A process that asks for another start
   * height than `start` begins only once the database has recorded that one. Every durable state of
   * the whole lifetime agrees with the reference indexer, and the committed tip never moves backwards.
   * Unless the source is arbitrary, no block is committed that was not final when some process looked.
   * The processes that are not killed and that nothing stands in the way of take the tip past what
   * stays final, or one block further for each observation.
   */
  method Lifetime(sessions: seq<Session>, accepts: StoredBlock -> bool, hash: Hasher, payloadLen: StoredBlock -> nat,
                  source: seq<Block>, conduct: Conduct, start: nat, ghost apply: Apply)
    returns (disk: Disk, history: seq<Disk>)
    requires Implements(apply, hash) && ValidChain(source, start)
    ensures JournalHolds(apply, source, start, history) && history != [] && history[|history| - 1] == disk
    ensures history[0] == EMPTY_DISK
    ensures !conduct.Arbitrary? ==> OnceFinalized(sessions, |sessions|, start, disk)
    ensures Risen(sessions, s => RunsThrough(apply, source, start, accepts, conduct, s), |sessions|, start,
        NextHeight(disk, start))
  {
    ProgramIsLawful(apply, hash);
    EmptyDiskHolds(apply, source, start);
    ghost var through := s => RunsThrough(apply, source, start, accepts, conduct, s);
    disk, history := EMPTY_DISK, [EMPTY_DISK];
    for i := 0 to |sessions|
      invariant JournalHolds(apply, source, start, history) && history != [] && history[|history| - 1] == disk
      invariant history[0] == EMPTY_DISK
      invariant !conduct.Arbitrary? ==> OnceFinalized(sessions, i, start, disk)
      invariant Risen(sessions, through, i, start, NextHeight(disk, start))
    {
      ghost var before := NextHeight(disk, start);
      if sessions[i].cfg.emitStart == start || disk.startHeight == Some(start) {
        CurrentHolds(apply, source, start, history);
        var survived := RunSession(sessions[i], accepts, hash, payloadLen, source, conduct, disk, apply, start);
        HistoryGrows(apply, source, start, history, survived);
        if !conduct.Arbitrary? { StaysOnceFinalized(sessions, i, start, disk, survived[|survived| - 1]); }
        disk, history := survived[|survived| - 1], history + survived;
      }
      SessionRises(sessions, through, i, start, before, NextHeight(disk, start));
    }
  }

  /** What a process leaves behind continues what it found. */
  lemma {:induction false} HistoryGrows(apply: Apply, chain: seq<Block>, start: nat, history: seq<Disk>,
                                        journal: seq<Disk>)
    requires JournalHolds(apply, chain, start, history) && JournalHolds(apply, chain, start, journal) && journal != []
    requires history != [] && journal[0] == history[|history| - 1]
    ensures JournalHolds(apply, chain, start, history + journal)
  {
    var all := history + journal;
    forall i, j | 0 <= i < j < |all|
      ensures NotAbove(start, all[i], all[j])
    {
      var last := history[|history| - 1];
      if i < |history| <= j {
        assert i < |history| - 1 ==> NotAbove(start, history[i], last);
        assert j > |history| ==> NotAbove(start, journal[0], journal[j - |history|]);
      }
      if i >= |history| { assert NotAbove(start, journal[i - |history|], journal[j - |history|]); }
    }
  }
}
