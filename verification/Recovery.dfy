/** What every durable state owes to the reference indexer. */
module Recovery {
  import opened Wrappers
  import opened Words
  import opened LightBlock
  import opened Chain
  import opened Indexer
  import opened Ledger
  import opened Storage

  // ---- Spends and their heights ----------------------------------------------------------

  /** The chain spends `o` in its block at `height`. */
  ghost predicate TrueSpend(chain: seq<Block>, start: nat, o: OutPoint, height: nat) {
    start <= height < start + |chain| && o in BlockInputs(chain[height - start])
  }

  lemma {:induction false} InChainInputs(chain: seq<Block>, i: nat, n: nat, o: OutPoint)
    requires i < n <= |chain| && o in BlockInputs(chain[i])
    ensures o in ChainInputs(chain, n)
  {
    ChainSetsMonotone(chain, i + 1, n);
  }

  lemma {:induction false} SpenderUnique(chain: seq<Block>, start: nat, o: OutPoint, i: nat, j: nat)
    requires ValidChain(chain, start) && o != COINBASE && i < |chain| && j < |chain|
    requires o in BlockInputs(chain[i]) && o in BlockInputs(chain[j])
    ensures i == j
  {
    if i < j {
      InChainInputs(chain, i, j, o);
      SpentOnce(chain, start, j, o);
    } else if j < i {
      InChainInputs(chain, j, i, o);
      SpentOnce(chain, start, i, o);
    }
  }

  // ---- Files ------------------------------------------------------------------------------

  /** An archived output: the fresh one, with at most its true spent height, set if spent by block `n`. */
  ghost predicate OutputHolds(chain: seq<Block>, start: nat, n: nat, o: OutPoint, made: StoredOutput, got: StoredOutput)
    requires n <= |chain|
  {
    && got == made.(spentHeight := got.spentHeight)
    && (o in ChainInputs(chain, n) ==> got.spentHeight != UNSPENT)
    && (got.spentHeight != UNSPENT ==> TrueSpend(chain, start, o, got.spentHeight))
  }

  /** The file of block `i` is the reference's stored block up to spent heights known at block `n`. */
  ghost predicate FileHolds(apply: Apply, chain: seq<Block>, start: nat, n: nat, i: nat, file: StoredBlock) {
    && n <= |chain| && Runs(apply, chain, i + 1)
    && var a := Step(apply, chain, i);
       && file == a.stored.(outputs := file.outputs)
       && |file.outputs| == |a.created| == |a.stored.outputs|
       && forall k | 0 <= k < |a.created| ::
            OutputHolds(chain, start, n, a.created[k].outpoint, a.stored.outputs[k], file.outputs[k])
  }

  ghost predicate FileAt(apply: Apply, chain: seq<Block>, start: nat, n: nat, i: nat, files: map<nat, StoredBlock>) {
    start + i in files && FileHolds(apply, chain, start, n, i, files[start + i])
  }

  /** Every file below block `m` holds, with the spends of the first `n` blocks. */
  ghost predicate FilesHold(apply: Apply, chain: seq<Block>, start: nat, n: nat, m: nat, files: map<nat, StoredBlock>) {
    forall i | 0 <= i < m :: FileAt(apply, chain, start, n, i, files)
  }

  // ---- The durable state --------------------------------------------------------------------

  /** Number of blocks the database has committed. */
  function CommittedBlocks(d: Disk, start: nat): nat {
    if d.tip.Some? && d.tip.value.height >= start then d.tip.value.height - start + 1 else 0
  }

  ghost predicate TipAt(apply: Apply, chain: seq<Block>, start: nat, n: nat, tip: Option<IndexTip>)
    requires Runs(apply, chain, n)
  {
    tip == if n == 0 then None
           else Some(IndexTip(start + n - 1, chain[n - 1].hash, Run(apply, chain, n).value.lastUid))
  }

  ghost predicate ManifestWithin(chain: seq<Block>, start: nat, n: nat, manifest: Option<ManifestTip>) {
    manifest.Some? ==>
      && start <= manifest.value.height < start + n <= start + |chain|
      && manifest.value.hash == chain[manifest.value.height - start].hash
  }

  /**
   * Rows and last UID are those of the reference indexer at the committed tip; so is every file up
   * to the tip, except that outputs may already carry true spent heights from above it; and the
   * manifest announces no block above the tip.
   */
  ghost predicate DiskHolds(apply: Apply, chain: seq<Block>, start: nat, d: Disk) {
    var n := CommittedBlocks(d, start);
    && Runs(apply, chain, n)
    && TipAt(apply, chain, start, n, d.tip)
    && d.rows == Live(apply, chain, n)
    && FilesHold(apply, chain, start, n, n, d.files)
    && ManifestWithin(chain, start, n, d.manifest)
    && d.startHeight in {None, Some(start)}
  }

  lemma {:induction false} EmptyDiskHolds(apply: Apply, chain: seq<Block>, start: nat)
    ensures DiskHolds(apply, chain, start, EMPTY_DISK)
  {
  }

  /** An archived output's spend is visible at height `t` exactly when the chain spends it by then. */
  ghost predicate SpentBy(chain: seq<Block>, start: nat, o: OutPoint, t: nat) {
    exists g | start <= g <= t :: TrueSpend(chain, start, o, g)
  }

  lemma {:induction false} FileMarksAreTrue(apply: Apply, chain: seq<Block>, start: nat, n: nat, i: nat,
                                            file: StoredBlock, k: nat, t: nat)
    requires Laws(apply) && ValidChain(chain, start) && Runs(apply, chain, n) && i < n
    requires FileHolds(apply, chain, start, n, i, file) && k < |file.outputs| && t < start + n
    ensures k < |Step(apply, chain, i).created| && file.outputs[k].spentHeight <= U32_MAX
    ensures var h := file.outputs[k].spentHeight;
            (h != UNSPENT && h <= t) <==> SpentBy(chain, start, Step(apply, chain, i).created[k].outpoint, t)
  {
    var o, h := Step(apply, chain, i).created[k].outpoint, file.outputs[k].spentHeight;
    assert OutputHolds(chain, start, n, o, Step(apply, chain, i).stored.outputs[k], file.outputs[k]);
    if h != UNSPENT && h <= t {
      assert TrueSpend(chain, start, o, h);
    }
    if g: nat :| start <= g <= t && TrueSpend(chain, start, o, g) {
      InChainInputs(chain, g - start, n, o);
      CreatedIsNotCoinbase(apply, chain, start, n, i, k);
      SpenderUnique(chain, start, o, g - start, h - start);
    }
  }

  /**
   * For every height `t` up to the committed tip, an archived output is marked spent at or below
   * `t` exactly when the chain spends it at or below `t`; the mark fits 32 bits, spent or not.
   */
  lemma {:induction false} SpentHeightsAreTrue(apply: Apply, chain: seq<Block>, start: nat, d: Disk, i: nat, k: nat,
                                               t: nat)
    requires Laws(apply) && ValidChain(chain, start) && DiskHolds(apply, chain, start, d)
    requires i < CommittedBlocks(d, start) && start + i in d.files && k < |d.files[start + i].outputs|
    requires t < start + CommittedBlocks(d, start)
    ensures Runs(apply, chain, i + 1) && k < |Step(apply, chain, i).created|
    ensures d.files[start + i].outputs[k].spentHeight <= U32_MAX
    ensures var h := d.files[start + i].outputs[k].spentHeight;
            (h != UNSPENT && h <= t) <==> SpentBy(chain, start, Step(apply, chain, i).created[k].outpoint, t)
  {
    var n := CommittedBlocks(d, start);
    assert FileAt(apply, chain, start, n, i, d.files);
    FileMarksAreTrue(apply, chain, start, n, i, d.files[start + i], k, t);
  }

  lemma {:induction false} CreatedIsNotCoinbase(apply: Apply, chain: seq<Block>, start: nat, n: nat, i: nat, k: nat)
    requires Laws(apply) && ValidChain(chain, start) && Runs(apply, chain, n) && i < n && Runs(apply, chain, i + 1)
    requires k < |Step(apply, chain, i).created|
    ensures Step(apply, chain, i).created[k].outpoint != COINBASE
  {
    CreatedIsIndexed(apply, chain, start, n, i, k);
    LiveIsIndexedUnspent(apply, chain, start, n);
    CoinbaseNeverCreated(chain, start, n);
  }

  // ---- Where a mark points --------------------------------------------------------------------

  /** An index entry's height and output index lead back to its outpoint. */
  lemma {:induction false} IndexPosition(apply: Apply, chain: seq<Block>, start: nat, n: nat, o: OutPoint)
    returns (i: nat)
    requires Laws(apply) && ValidChain(chain, start) && Runs(apply, chain, n) && o in Index(apply, chain, n)
    ensures i < n && Runs(apply, chain, i + 1)
    ensures var ref := Index(apply, chain, n)[o];
            && ref.creationHeight == start + i
            && ref.outputIndex < |Step(apply, chain, i).created|
            && Step(apply, chain, i).created[ref.outputIndex] == Created(o, ref)
  {
    var k;
    i, k := IndexOrigin(apply, chain, n, o);
    StepChangesLive(apply, chain, start, i);
    assert ValidAt(chain, start, i);
  }

  /** Nothing is spent before it is indexed. */
  lemma {:induction false} IndexedWhenSpent(apply: Apply, chain: seq<Block>, start: nat, n: nat, j: nat, o: OutPoint)
    requires Laws(apply) && ValidChain(chain, start) && Runs(apply, chain, n) && j < n && Runs(apply, chain, j + 1)
    requires o in Index(apply, chain, n) && o in BlockInputs(chain[j])
    ensures o in Index(apply, chain, j + 1) && Index(apply, chain, j + 1)[o] == Index(apply, chain, n)[o]
  {
    var i, k := IndexOrigin(apply, chain, n, o);
    StepChangesLive(apply, chain, start, i);
    CreatedIsIndexed(apply, chain, start, i + 1, i, k);
    if j < i {
      LiveIsIndexedUnspent(apply, chain, start, i + 1);
      InChainInputs(chain, j, i, o);
      CreatedInBlock(apply, chain, start, i, k);
      CreatedFresh(chain, start, i, o);
    } else {
      IndexGrows(apply, chain, start, i + 1, j + 1, o);
      IndexGrows(apply, chain, start, j + 1, n, o);
    }
  }

  lemma {:induction false} CreatedInBlock(apply: Apply, chain: seq<Block>, start: nat, i: nat, k: nat)
    requires Laws(apply) && ValidChain(chain, start) && Runs(apply, chain, i + 1)
    requires k < |Step(apply, chain, i).created|
    ensures Step(apply, chain, i).created[k].outpoint in BlockOutputs(chain[i])
  {
    StepNumbersNatives(apply, chain, i);
    assert ValidAt(chain, start, i);
    NativesDistinct(chain[i].txs, |chain[i].txs|, ChainInputs(chain, i), ChainOutputs(chain, i));
  }
}
