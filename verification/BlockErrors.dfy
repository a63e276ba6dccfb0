/** When the indexer refuses a block, and what one it accepts is bounded by. */
module BlockErrors {
  import opened Wrappers
  import opened Words
  import opened HashPacking
  import opened TxBitmap
  import opened LightBlock
  import opened Chain
  import opened Indexer
  import opened BlockEffect
  import opened NativeOutputs
  import opened Assembly
  import opened StoredGroups
  import Filtering

  /** The first `n` transactions keep within the bounds on native outputs, their keys and bitmap positions. */
  ghost predicate TxsFit(txs: seq<Tx>, n: nat)
    requires n <= |txs|
  {
    forall t | 0 <= t < n :: TxFits(txs, t)
  }

  ghost predicate TxFits(txs: seq<Tx>, t: nat)
    requires t < |txs|
  {
    IndexedIn(txs[t]) <= U16_MAX && (IndexedIn(txs[t]) == 0 ==> txs[t].txIndex < |txs|)
  }

  // ---- Outputs -----------------------------------------------------------------------------------------

  /** Why an output is refused, said of the native outputs `before` and those of the transaction. */
  ghost predicate OutputsBlame(before: seq<Native>, firstUid: nat, own: seq<Native>, e: ApplyError) {
    match e
    case TooManySlots => |before + own| > U16_MAX + 1
    case MissingKey => !Keyed(own)
    case TooManyOutputsInTx => |SlotsWhere(own, true)| > U16_MAX
    case UidOverflow => firstUid + |before + own| - 1 > U64_MAX
    case _ => false
  }

  lemma {:induction false} KeyedAppend(natives: seq<Native>, x: Native)
    ensures Keyed(natives + [x]) <==> Keyed(natives) && x.key.Some?
  {
    if Keyed(natives + [x]) {
      assert (natives + [x])[|natives|].key.Some?;
      forall p | 0 <= p < |natives|
        ensures natives[p].key.Some?
      {
        assert (natives + [x])[p].key.Some?;
      }
    }
  }

  /** Blame does not fade as natives are added. */
  lemma {:induction false} BlameStays(before: seq<Native>, firstUid: nat, own: seq<Native>, x: Native, e: ApplyError)
    requires OutputsBlame(before, firstUid, own, e)
    ensures OutputsBlame(before, firstUid, own + [x], e)
  {
    KeyedAppend(own, x);
    SlotsWhereAppend(own, x, true);
  }

  lemma {:induction false} OutputsErr(d: Draft, firstUid: nat, height: nat, tx: Tx, n: nat, before: seq<Native>)
    requires n <= |tx.outputs| && SlotsScanned(d.parts, firstUid, before) && d.parts.inTx == 0
    requires AddOutputs(d, firstUid, height, tx, n).Err?
    ensures OutputsBlame(before, firstUid, TxNatives(tx, n), AddOutputs(d, firstUid, height, tx, n).error)
  {
    var own, front := TxNatives(tx, n - 1), AddOutputs(d, firstUid, height, tx, n - 1);
    var output := tx.outputs[n - 1];
    var x := Native(OutPoint(tx.txid, output.vout), output.key, !output.isNums && tx.tweak.Some?);
    if front.Err? {
      OutputsErr(d, firstUid, height, tx, n - 1, before);
      if output.isP2tr { BlameStays(before, firstUid, own, x, front.error); } else { assert own + [] == own; }
    } else {
      SlotsScannedOutputs(d, firstUid, height, tx, n - 1, before);
      InTxCounts(d, firstUid, height, tx, n - 1);
      SlotsWhereAppend(own, x, true);
      KeyedAppend(own, x);
    }
  }

  lemma {:induction false} OutputsOk(d: Draft, firstUid: nat, height: nat, tx: Tx, n: nat)
    requires n <= |tx.outputs| && d.parts.inTx == 0 && AddOutputs(d, firstUid, height, tx, n).Ok?
    ensures Keyed(TxNatives(tx, n)) && |SlotsWhere(TxNatives(tx, n), true)| <= U16_MAX
  {
    if n > 0 {
      OutputsOk(d, firstUid, height, tx, n - 1);
      InTxCounts(d, firstUid, height, tx, n - 1);
      var own, output := TxNatives(tx, n - 1), tx.outputs[n - 1];
      var x := Native(OutPoint(tx.txid, output.vout), output.key, !output.isNums && tx.tweak.Some?);
      if output.isP2tr {
        KeyedAppend(own, x);
        SlotsWhereAppend(own, x, true);
      } else {
        assert own + [] == own;
      }
    }
  }

  // ---- Inputs ----------------------------------------------------------------------------------------------

  lemma {:induction false} InputsErr(d: Draft, height: nat, inputs: seq<OutPoint>, n: nat)
    requires n <= |inputs| && SpendInputs(d, height, inputs, n).Err?
    ensures SpendInputs(d, height, inputs, n).error == CreationHeightTooLarge && !HeightsFit(d.live, U32_MAX)
  {
    if SpendInputs(d, height, inputs, n - 1).Err? {
      InputsErr(d, height, inputs, n - 1);
    } else {
      InputsShrink(d, height, inputs, n - 1);
      var o, front := inputs[n - 1], SpendInputs(d, height, inputs, n - 1).value;
      assert (o, front.live[o]) in d.live.Items;
    }
  }

  lemma {:induction false} InputsShrink(d: Draft, height: nat, inputs: seq<OutPoint>, n: nat)
    requires n <= |inputs| && SpendInputs(d, height, inputs, n).Ok?
    ensures SpendInputs(d, height, inputs, n).value.live.Items <= d.live.Items
  {
    if n > 0 { InputsShrink(d, height, inputs, n - 1); }
  }

  /** Every recorded spend has a creation height of 32 bits. */
  ghost predicate SpendHeights(spends: seq<StoredSpend>) {
    forall k | 0 <= k < |spends| :: spends[k].creationHeight <= U32_MAX
  }

  lemma {:induction false} InputsOk(d: Draft, height: nat, inputs: seq<OutPoint>, n: nat)
    requires n <= |inputs| && SpendInputs(d, height, inputs, n).Ok? && SpendHeights(d.parts.spends)
    ensures SpendHeights(SpendInputs(d, height, inputs, n).value.parts.spends)
  {
    if n > 0 { InputsOk(d, height, inputs, n - 1); }
  }

  lemma {:induction false} OutputsKeepHeights(d: Draft, firstUid: nat, height: nat, tx: Tx, n: nat)
    requires n <= |tx.outputs| && AddOutputs(d, firstUid, height, tx, n).Ok?
    requires HeightsFit(d.live, U32_MAX) && height <= U32_MAX
    ensures HeightsFit(AddOutputs(d, firstUid, height, tx, n).value.live, U32_MAX)
  {
    if n > 0 { OutputsKeepHeights(d, firstUid, height, tx, n - 1); }
  }

  lemma {:induction false} OutputsKeepSpends(d: Draft, firstUid: nat, height: nat, tx: Tx, n: nat)
    requires n <= |tx.outputs| && AddOutputs(d, firstUid, height, tx, n).Ok?
    ensures AddOutputs(d, firstUid, height, tx, n).value.parts.spends == d.parts.spends
  {
    if n > 0 { OutputsKeepSpends(d, firstUid, height, tx, n - 1); }
  }

  // ---- Transactions ---------------------------------------------------------------------------------------------

  /** Heights of 32 bits and a valid bitmap, whatever has been scanned. */
  ghost predicate Scanning(s: Scan, txCount: nat, heightsFit: bool) {
    && ValidBitmap(txCount, s.bitmap) && SpendHeights(s.draft.parts.spends)
    && (heightsFit ==> HeightsFit(s.draft.live, U32_MAX))
  }

  lemma {:induction false} TxOk(s: Scan, firstUid: nat, height: nat, txs: seq<Tx>, t: nat, heightsFit: bool)
    requires t < |txs| && Scanning(s, |txs|, heightsFit) && (heightsFit ==> height <= U32_MAX)
    requires ApplyTx(s, firstUid, height, |txs|, txs[t]).Ok?
    ensures Scanning(ApplyTx(s, firstUid, height, |txs|, txs[t]).value, |txs|, heightsFit) && TxFits(txs, t)
    ensures Keyed(TxNatives(txs[t], |txs[t].outputs|))
  {
    var tx := txs[t];
    var reset := s.draft.(parts := s.draft.parts.(inTx := 0));
    ScanTxCounts(s.draft, firstUid, height, tx);
    InputsOk(reset, height, tx.inputs, |tx.inputs|);
    InputsShrink(reset, height, tx.inputs, |tx.inputs|);
    SpendInputsKeep(reset, height, tx.inputs, |tx.inputs|);
    var mid := SpendInputs(reset, height, tx.inputs, |tx.inputs|).value;
    if heightsFit {
      HeightsShrink(reset.live, mid.live);
      OutputsKeepHeights(mid, firstUid, height, tx, |tx.outputs|);
    }
    OutputsKeepSpends(mid, firstUid, height, tx, |tx.outputs|);
    OutputsOk(mid, firstUid, height, tx, |tx.outputs|);
    if IndexedIn(tx) == 0 { WithTxValid(|txs|, s.bitmap, tx.txIndex); }
  }

  lemma {:induction false} HeightsShrink(live: Refs, less: Refs)
    requires HeightsFit(live, U32_MAX) && less.Items <= live.Items
    ensures HeightsFit(less, U32_MAX)
  {
    forall o | o in less
      ensures less[o].creationHeight <= U32_MAX
    {
      assert (o, less[o]) in less.Items;
    }
  }

  /** Why a block is refused. */
  ghost predicate BlockBlame(m: Memory, b: Block, e: ApplyError) {
    var natives := BlockNatives(b);
    match e
    case TooManyTxs => |b.txs| > U16_MAX
    case CreationHeightTooLarge => b.height > U32_MAX || !HeightsFit(m.live, U32_MAX)
    case TooManySlots => |natives| > U16_MAX + 1
    case MissingKey => !Keyed(natives)
    case TooManyOutputsInTx => exists t :: 0 <= t < |b.txs| && IndexedIn(b.txs[t]) > U16_MAX
    case UidOverflow => natives != [] && m.lastUid + |natives| >= U64_MAX
    case TxIndexRejected => exists t :: 0 <= t < |b.txs| && IndexedIn(b.txs[t]) == 0 && b.txs[t].txIndex >= |b.txs|
    case ResponseRejected(_) => true
  }

  lemma {:induction false} TxErr(m: Memory, s: Scan, firstUid: nat, b: Block, t: nat)
    requires t < |b.txs| && firstUid == FirstUid(m.lastUid) && SlotsScanned(s.draft.parts, firstUid, Natives(b.txs, t))
    requires Scanning(s, |b.txs|, b.height <= U32_MAX && HeightsFit(m.live, U32_MAX))
    requires ApplyTx(s, firstUid, b.height, |b.txs|, b.txs[t]).Err?
    ensures BlockBlame(m, b, ApplyTx(s, firstUid, b.height, |b.txs|, b.txs[t]).error)
  {
    var tx := b.txs[t];
    var reset := s.draft.(parts := s.draft.parts.(inTx := 0));
    var mid := SpendInputs(reset, b.height, tx.inputs, |tx.inputs|);
    if mid.Err? {
      InputsErr(reset, b.height, tx.inputs, |tx.inputs|);
    } else {
      SpendInputsKeep(reset, b.height, tx.inputs, |tx.inputs|);
      if AddOutputs(mid.value, firstUid, b.height, tx, |tx.outputs|).Err? {
        OutputsErr(mid.value, firstUid, b.height, tx, |tx.outputs|, Natives(b.txs, t));
        NativesPrefix(b.txs, t + 1, |b.txs|);
        OutputsBlameBlock(m, b, t, AddOutputs(mid.value, firstUid, b.height, tx, |tx.outputs|).error);
      } else {
        ScanTxCounts(s.draft, firstUid, b.height, tx);
      }
    }
  }

  lemma {:induction false} OutputsBlameBlock(m: Memory, b: Block, t: nat, e: ApplyError)
    requires t < |b.txs| && Natives(b.txs, t + 1) <= BlockNatives(b)
    requires OutputsBlame(Natives(b.txs, t), FirstUid(m.lastUid), TxNatives(b.txs[t], |b.txs[t].outputs|), e)
    ensures BlockBlame(m, b, e)
  {
    if e == MissingKey && Keyed(BlockNatives(b)) {
      TxKeyed(b.txs, t + 1);
    }
  }

  lemma {:induction false} TxsScanning(m: Memory, firstUid: nat, b: Block, n: nat)
    requires n <= |b.txs| && ApplyTxs(ScanStart(m, b), firstUid, b, n).Ok?
    ensures Scanning(ApplyTxs(ScanStart(m, b), firstUid, b, n).value, |b.txs|,
                     b.height <= U32_MAX && HeightsFit(m.live, U32_MAX))
    ensures TxsFit(b.txs, n) && Keyed(Natives(b.txs, n))
  {
    if n == 0 {
      EmptyBitmapBits(|b.txs|);
    } else {
      TxsScanning(m, firstUid, b, n - 1);
      TxOk(ApplyTxs(ScanStart(m, b), firstUid, b, n - 1).value, firstUid, b.height, b.txs, n - 1,
           b.height <= U32_MAX && HeightsFit(m.live, U32_MAX));
    }
  }

  lemma {:induction false} TxsErr(m: Memory, b: Block, n: nat)
    requires n <= |b.txs| && ApplyTxs(ScanStart(m, b), FirstUid(m.lastUid), b, n).Err?
    ensures BlockBlame(m, b, ApplyTxs(ScanStart(m, b), FirstUid(m.lastUid), b, n).error)
  {
    var firstUid := FirstUid(m.lastUid);
    if ApplyTxs(ScanStart(m, b), firstUid, b, n - 1).Err? {
      TxsErr(m, b, n - 1);
    } else {
      TxsScanning(m, firstUid, b, n - 1);
      SlotsScannedTxs(ScanStart(m, b), firstUid, b, n - 1);
      TxErr(m, ApplyTxs(ScanStart(m, b), firstUid, b, n - 1).value, firstUid, b, n - 1);
    }
  }

  // ---- Blocks ---------------------------------------------------------------------------------------------------

  /** A refused block is refused for the reason its error names. */
  lemma {:induction false} RefusalIsTrue(hash: Hasher, m: Memory, b: Block)
    requires ApplyBlock(hash, m, b).Err?
    ensures BlockBlame(m, b, ApplyBlock(hash, m, b).error)
  {
    var firstUid := FirstUid(m.lastUid);
    var s := ApplyTxs(ScanStart(m, b), firstUid, b, |b.txs|);
    if s.Err? {
      TxsErr(m, b, |b.txs|);
    } else {
      SlotsScannedTxs(ScanStart(m, b), firstUid, b, |b.txs|);
    }
  }

  /** The response without cut-through or reuse filtering, for many labels. */
  function NoFilter(): Filtering.Filter {
    Filtering.Filter(None, None, false, None)
  }

  /**
   * An accepted block gives no reason for refusal: it keeps within every bound, all its native outputs
   * have their keys, what it spends was created at a height of 32 bits, and the response produced with
   * it is the one served for it.
   */
  lemma {:induction false} AcceptedFits(hash: Hasher, m: Memory, b: Block)
    requires ApplyBlock(hash, m, b).Ok?
    ensures var (next, a) := ApplyBlock(hash, m, b).value;
            && |b.txs| <= U16_MAX && TxsFit(b.txs, |b.txs|)
            && Keyed(BlockNatives(b)) && |BlockNatives(b)| <= U16_MAX + 1
            && (BlockNatives(b) != [] ==> m.lastUid + |BlockNatives(b)| < U64_MAX)
            && SpendHeights(a.stored.spends)
            && Filtering.Derived(hash, a.stored, NoFilter()) == Ok(a.light)
  {
    TxsScanning(m, FirstUid(m.lastUid), b, |b.txs|);
    BlockNumbersNatives(hash, m, b);
  }
}
