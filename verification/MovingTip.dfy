/** A chain on which cut-through goes wrong when the tip moves between two pages. */
module MovingTip {
  import opened Wrappers
  import opened HashPacking
  import opened LightBlock
  import opened Chain
  import opened NativeOutputs
  import opened Ledger
  import opened Recovery
  import opened Assembly
  import opened ServedArchive
  import opened CutThrough

  /** Creates one indexed output. */
  function Creating(): Block {
    Block(1, 101, 100, 80, [Tx(11, 0, [COINBASE], [TxOutput(0, Some(5), true, false)], Some(7))])
  }

  /** Spends it and creates nothing indexed. */
  function Spending(): Block {
    Block(2, 102, 101, 80, [Tx(12, 0, [OutPoint(11, 0)], [], None)])
  }

  function TwoBlocks(): seq<Block> {
    [Creating(), Spending()]
  }

  lemma {:induction false} CreatingSets()
    ensures BlockInputs(Creating()) == {COINBASE} && BlockOutputs(Creating()) == {OutPoint(11, 0)}
  {
    var b := Creating();
    assert InputsUpTo(b.txs, 1) == InputsUpTo(b.txs, 0) + TxInputs(b.txs[0]);
    assert OutputsUpTo(b.txs, 1) == OutputsUpTo(b.txs, 0) + TxOutputs(b.txs[0]);
    assert TxOutputs(b.txs[0]) == {OutPoint(11, 0)} by {
      assert b.txs[0].outputs[0].vout == 0;
    }
  }

  lemma {:induction false} SpendingSets()
    ensures BlockInputs(Spending()) == {OutPoint(11, 0)} && BlockOutputs(Spending()) == {}
  {
    var b := Spending();
    assert InputsUpTo(b.txs, 1) == InputsUpTo(b.txs, 0) + TxInputs(b.txs[0]);
    assert OutputsUpTo(b.txs, 1) == OutputsUpTo(b.txs, 0) + TxOutputs(b.txs[0]);
  }

  lemma {:induction false} TwoBlocksValid()
    ensures ValidChain(TwoBlocks(), 1)
    ensures ChainInputs(TwoBlocks(), 2) == {COINBASE, OutPoint(11, 0)}
  {
    var chain := TwoBlocks();
    CreatingSets();
    SpendingSets();
    assert ChainInputs(chain, 1) == ChainInputs(chain, 0) + BlockInputs(chain[0]);
    assert ChainOutputs(chain, 1) == ChainOutputs(chain, 0) + BlockOutputs(chain[0]);
    assert ChainInputs(chain, 2) == ChainInputs(chain, 1) + BlockInputs(chain[1]);
    assert ValidTx(chain[0].txs, 0, {}, {});
    assert ValidTx(chain[1].txs, 0, ChainInputs(chain, 1), ChainOutputs(chain, 1));
    assert ValidAt(chain, 1, 0) && ValidAt(chain, 1, 1);
  }

  lemma {:induction false} CreatingNatives()
    ensures BlockNatives(Creating()) == [Native(OutPoint(11, 0), Some(5), true)]
    ensures SlotsWhere(BlockNatives(Creating()), true) == [0] && SlotsWhere(BlockNatives(Creating()), false) == []
    ensures BlockNatives(Spending()) == []
  {
    var tx := Creating().txs[0];
    assert TxNatives(tx, 1) == TxNatives(tx, 0) + [Native(OutPoint(11, 0), Some(5), true)];
    assert Natives(Creating().txs, 1) == Natives(Creating().txs, 0) + TxNatives(tx, 1);
    assert Natives(Spending().txs, 1) == Natives(Spending().txs, 0) + TxNatives(Spending().txs[0], 0);
    SlotsWhereAppend([], BlockNatives(Creating())[0], true);
    SlotsWhereAppend([], BlockNatives(Creating())[0], false);
    assert [] + [BlockNatives(Creating())[0]] == BlockNatives(Creating());
  }

  lemma {:induction false} TwoBlocksRun(apply: Apply, hash: Hasher)
    requires Implements(apply, hash)
    ensures Runs(apply, TwoBlocks(), 1) && Runs(apply, TwoBlocks(), 2)
    ensures |Step(apply, TwoBlocks(), 0).created| == 1
        && Step(apply, TwoBlocks(), 0).created[0].outpoint == OutPoint(11, 0)
    ensures |Step(apply, TwoBlocks(), 1).created| == 0
  {
    var chain := TwoBlocks();
    TwoBlocksValid();
    CreatingNatives();
    assert InputCount(chain[0].txs, 1) == InputCount(chain[0].txs, 0) + 1;
    assert InputCount(chain[1].txs, 1) == InputCount(chain[1].txs, 0) + 1;
    assert WellFormedAt(chain, 0) && WellFormedAt(chain, 1);
    WellFormedChainRuns(apply, hash, chain, 1, 2);
    WellFormedChainRuns(apply, hash, chain, 1, 1);
    ProgramIsLawful(apply, hash);
    StepNumbersNatives(apply, chain, 0);
    StepNumbersNatives(apply, chain, 1);
  }

  /** The two files once everything is committed. */
  ghost function TwoFiles(apply: Apply): seq<StoredBlock>
    requires Runs(apply, TwoBlocks(), 1) && Runs(apply, TwoBlocks(), 2)
  {
    var first := Step(apply, TwoBlocks(), 0).stored;
    [first.(outputs := seq(|first.outputs|, k requires 0
      <= k < |first.outputs| => first.outputs[k].(spentHeight := 2))),
     Step(apply, TwoBlocks(), 1).stored]
  }

  lemma {:induction false} TwoFilesArchived(apply: Apply, hash: Hasher)
    requires Implements(apply, hash) && Runs(apply, TwoBlocks(), 1) && Runs(apply, TwoBlocks(), 2)
    ensures Archived(apply, TwoBlocks(), 1, 2, TwoFiles(apply))
  {
    var chain, files := TwoBlocks(), TwoFiles(apply);
    ProgramIsLawful(apply, hash);
    TwoBlocksValid();
    TwoBlocksRun(apply, hash);
    SpendingSets();
    StepNumbersNatives(apply, chain, 0);
    StepNumbersNatives(apply, chain, 1);
    assert TrueSpend(chain, 1, OutPoint(11, 0), 2);
    assert OutputHolds(chain, 1, 2, OutPoint(11, 0), Step(apply, chain, 0).stored.outputs[0], files[0].outputs[0]);
    assert FileHolds(apply, chain, 1, 2, 0, files[0]);
    assert files[1] == files[1].(outputs := files[1].outputs);
    assert FileHolds(apply, chain, 1, 2, 1, files[1]);
  }

  /** The two pages, each within what the archive covers when it is served. */
  lemma {:induction false} TwoPagesServed(apply: Apply, hash: Hasher)
    requires Implements(apply, hash) && Runs(apply, TwoBlocks(), 1) && Runs(apply, TwoBlocks(), 2)
    ensures CutRange(apply, TwoBlocks(), 1, 2, TwoFiles(apply), 0, 2, TwoTips(2, 1, 2)) && Replayable(TwoFiles(apply))
  {
    ProgramIsLawful(apply, hash);
    TwoBlocksValid();
    TwoFilesArchived(apply, hash);
    ArchiveIsReplayable(apply, TwoBlocks(), 1, 2, TwoFiles(apply));
  }

  lemma {:induction false} SpentOnSecondPage(apply: Apply, hash: Hasher)
    requires Implements(apply, hash)
    ensures SpentBetween(apply, TwoBlocks(), 1, 0, 1, 2, 1, 2)
  {
    TwoBlocksRun(apply, hash);
    SpendingSets();
    assert UidSpentBy(apply, TwoBlocks(), 0, 0, 1);
  }

  /**
   * One block a page, tip 1 for the first page and tip 2 for the second: the first page still serves
   * the output, the second no longer serves its spend, and the client keeps it forever.
   */
  lemma {:induction false} MovingTipFails(apply: Apply, hash: Hasher, labels: Option<nat>)
    requires Implements(apply, hash)
    ensures Runs(apply, TwoBlocks(), 1) && Runs(apply, TwoBlocks(), 2)
    ensures var files, tips := TwoFiles(apply), TwoTips(2, 1, 2);
            && CutRange(apply, TwoBlocks(), 1, 2, files, 0, 2, tips) && Replayable(files)
            && Replay({}, files, 0, 2, CutAt(1, 1, tips, labels)) != Replay({}, files, 0, 2, Full(labels))
  {
    TwoBlocksRun(apply, hash);
    TwoPagesServed(apply, hash);
    SpentOnSecondPage(apply, hash);
    MovingTipIff(apply, TwoBlocks(), 1, 2, TwoFiles(apply), 0, 1, 2, 1, 2, labels, {});
  }
}
