/** Scanned blocks, and what it means for them to form one chain. */
module Chain {
  import opened Wrappers
  import opened Words
  import HashPacking
  import LightBlock

  type Key = HashPacking.Key
  type Tweak = LightBlock.Tweak
  type BlockHash = LightBlock.BlockHash

  datatype OutPoint = OutPoint(txid: nat, vout: nat)

  /** The previous output named by a coinbase input. */
  const COINBASE: OutPoint := OutPoint(0, U32_MAX)

  datatype TxOutput = TxOutput(vout: nat, key: Option<Key>, isP2tr: bool, isNums: bool)

  datatype Tx = Tx(
    txid: nat,
    txIndex: nat,
    inputs: seq<OutPoint>,
    outputs: seq<TxOutput>,
    tweak: Option<Tweak>)

  datatype Block = Block(
    height: nat,
    hash: BlockHash,
    previousHash: BlockHash,
    rawBytes: nat,
    txs: seq<Tx>)

  // ---- Outpoints a chain spends and creates --------------------------------------

  ghost function InputSet(inputs: seq<OutPoint>): set<OutPoint> {
    set o | o in inputs
  }

  lemma {:induction false} InputSetAppend(inputs: seq<OutPoint>, o: OutPoint)
    ensures InputSet(inputs + [o]) == InputSet(inputs) + {o}
  {
    forall p
      ensures p in InputSet(inputs + [o]) <==> p in InputSet(inputs) + {o}
    {
    }
  }

  ghost function TxInputs(tx: Tx): set<OutPoint> {
    InputSet(tx.inputs)
  }

  ghost function TxOutputs(tx: Tx): set<OutPoint> {
    set v | 0 <= v < |tx.outputs| :: OutPoint(tx.txid, tx.outputs[v].vout)
  }

  ghost function InputsUpTo(txs: seq<Tx>, n: nat): set<OutPoint>
    requires n <= |txs|
  {
    if n == 0 then {} else InputsUpTo(txs, n - 1) + TxInputs(txs[n - 1])
  }

  ghost function OutputsUpTo(txs: seq<Tx>, n: nat): set<OutPoint>
    requires n <= |txs|
  {
    if n == 0 then {} else OutputsUpTo(txs, n - 1) + TxOutputs(txs[n - 1])
  }

  ghost function BlockInputs(b: Block): set<OutPoint> {
    InputsUpTo(b.txs, |b.txs|)
  }

  ghost function BlockOutputs(b: Block): set<OutPoint> {
    OutputsUpTo(b.txs, |b.txs|)
  }

  ghost function ChainInputs(chain: seq<Block>, n: nat): set<OutPoint>
    requires n <= |chain|
  {
    if n == 0 then {} else ChainInputs(chain, n - 1) + BlockInputs(chain[n - 1])
  }

  ghost function ChainOutputs(chain: seq<Block>, n: nat): set<OutPoint>
    requires n <= |chain|
  {
    if n == 0 then {} else ChainOutputs(chain, n - 1) + BlockOutputs(chain[n - 1])
  }

  // ---- One chain -------------------------------------------------------------------

  /** No two outputs of a transaction share an index. */
  ghost predicate DistinctOutputs(tx: Tx) {
    forall v, w | 0 <= v < w < |tx.outputs| :: tx.outputs[v].vout != tx.outputs[w].vout
  }

  /**
   * The `t`-th transaction creates outpoints that no earlier one created and that nothing up to
   * and including itself spends, and spends outpoints that no earlier one spent.
   */
  ghost predicate ValidTx(txs: seq<Tx>, t: nat, spentBefore: set<OutPoint>, createdBefore: set<OutPoint>)
    requires t < |txs|
  {
    && DistinctOutputs(txs[t])
    && COINBASE !in TxOutputs(txs[t])
    && TxOutputs(txs[t]) !! createdBefore + OutputsUpTo(txs, t)
    && TxOutputs(txs[t]) !! spentBefore + InputsUpTo(txs, t + 1)
    && TxInputs(txs[t]) * (spentBefore + InputsUpTo(txs, t)) <= {COINBASE}
  }

  ghost predicate ValidBlock(b: Block, spentBefore: set<OutPoint>, createdBefore: set<OutPoint>) {
    forall t | 0 <= t < |b.txs| :: ValidTx(b.txs, t, spentBefore, createdBefore)
  }

  /** The `i`-th block has its height, links to its predecessor and is valid after the earlier ones. */
  ghost predicate ValidAt(chain: seq<Block>, start: nat, i: nat)
    requires i < |chain|
  {
    && chain[i].height == start + i
    && (i > 0 ==> chain[i].previousHash == chain[i - 1].hash)
    && ValidBlock(chain[i], ChainInputs(chain, i), ChainOutputs(chain, i))
  }

  /** Contiguous heights from `start`, linked hashes, every outpoint created and spent at most once. */
  ghost predicate ValidChain(chain: seq<Block>, start: nat) {
    && start + |chain| <= U32_MAX
    && forall i | 0 <= i < |chain| :: ValidAt(chain, start, i)
  }

  // ---- Consequences ------------------------------------------------------------------

  lemma {:induction false} ChainSetsMonotone(chain: seq<Block>, m: nat, n: nat)
    requires m <= n <= |chain|
    ensures ChainInputs(chain, m) <= ChainInputs(chain, n)
    ensures ChainOutputs(chain, m) <= ChainOutputs(chain, n)
  {
    if m < n { ChainSetsMonotone(chain, m, n - 1); }
  }

  lemma {:induction false} SpentInTx(txs: seq<Tx>, n: nat, o: OutPoint) returns (t: nat)
    requires n <= |txs| && o in InputsUpTo(txs, n)
    ensures t < n && o in TxInputs(txs[t])
  {
    t := n - 1;
    if o !in TxInputs(txs[n - 1]) { t := SpentInTx(txs, n - 1, o); }
  }

  lemma {:induction false} CreatedInTx(txs: seq<Tx>, n: nat, o: OutPoint) returns (t: nat)
    requires n <= |txs| && o in OutputsUpTo(txs, n)
    ensures t < n && o in TxOutputs(txs[t])
  {
    t := n - 1;
    if o !in TxOutputs(txs[n - 1]) { t := CreatedInTx(txs, n - 1, o); }
  }

  /** A block of a valid chain spends nothing an earlier block spent. */
  lemma {:induction false} SpentOnce(chain: seq<Block>, start: nat, i: nat, o: OutPoint)
    requires ValidChain(chain, start) && i < |chain|
    requires o in BlockInputs(chain[i]) && o in ChainInputs(chain, i)
    ensures o == COINBASE
  {
    assert ValidAt(chain, start, i);
    var t := SpentInTx(chain[i].txs, |chain[i].txs|, o);
    assert ValidTx(chain[i].txs, t, ChainInputs(chain, i), ChainOutputs(chain, i));
    assert o in TxInputs(chain[i].txs[t]) * (ChainInputs(chain, i) + InputsUpTo(chain[i].txs, t));
  }

  /** A block of a valid chain creates nothing created or spent earlier. */
  lemma {:induction false} CreatedFresh(chain: seq<Block>, start: nat, i: nat, o: OutPoint)
    requires ValidChain(chain, start) && i < |chain| && o in BlockOutputs(chain[i])
    ensures o !in ChainInputs(chain, i) && o !in ChainOutputs(chain, i) && o != COINBASE
  {
    assert ValidAt(chain, start, i);
    var t := CreatedInTx(chain[i].txs, |chain[i].txs|, o);
    assert ValidTx(chain[i].txs, t, ChainInputs(chain, i), ChainOutputs(chain, i));
  }
}
