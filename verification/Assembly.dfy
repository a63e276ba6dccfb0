/** Well-formed blocks are always applied, and what is assembled from them is always valid. */
module Assembly {
  import opened Wrappers
  import opened Words
  import opened HashPacking
  import opened TxBitmap
  import opened LightBlock
  import opened Chain
  import opened Indexer
  import opened BlockEffect
  import opened NativeOutputs
  import SpentIds
  import Serving

  ghost predicate Keyed(natives: seq<Native>) {
    forall p | 0 <= p < |natives| :: natives[p].key.Some?
  }

  ghost function InputCount(txs: seq<Tx>, n: nat): nat
    requires n <= |txs|
  {
    if n == 0 then 0 else InputCount(txs, n - 1) + |txs[n - 1].inputs|
  }

  /**
   * Transactions are numbered by position, the size is known, every native output has its key,
   * the counts of transactions, of indexed and of skipped outputs fit sixteen bits, so does the slot
   * of every native output, and inputs fit thirty-two.
   */
  ghost predicate WellFormed(b: Block) {
    && b.rawBytes > 0 && b.height <= U32_MAX && |b.txs| <= U16_MAX && NativesFit(BlockNatives(b))
    && (forall t | 0 <= t < |b.txs| :: b.txs[t].txIndex == t)
    && Keyed(BlockNatives(b)) && InputCount(b.txs, |b.txs|) <= U32_MAX
  }

  ghost predicate NativesFit(natives: seq<Native>) {
    && |natives| <= U16_MAX + 1
    && |SlotsWhere(natives, true)| <= U16_MAX && |SlotsWhere(natives, false)| <= U16_MAX
  }

  /** Every live output was created at `height` or below. */
  ghost predicate HeightsFit(live: Refs, height: nat) {
    forall o | o in live :: live[o].creationHeight <= height
  }

  // ---- Scanning succeeds -----------------------------------------------------------------------

  lemma {:induction false} InputsSucceed(d: Draft, height: nat, inputs: seq<OutPoint>, n: nat)
    requires HeightsFit(d.live, height) && height <= U32_MAX && n <= |inputs|
    ensures SpendInputs(d, height, inputs, n).Ok? && HeightsFit(SpendInputs(d, height, inputs, n).value.live, height)
  {
    if n > 0 { InputsSucceed(d, height, inputs, n - 1); }
  }

  /** With `slots` native outputs behind it and few enough ahead, no output of a transaction fails. */
  lemma {:induction false} OutputsSucceed(d: Draft, firstUid: nat, height: nat, tx: Tx, n: nat)
    requires n <= |tx.outputs| && HeightsFit(d.live, height) && height <= U32_MAX && d.parts.inTx == 0
    requires d.parts.slots + |TxNatives(tx, n)| <= U16_MAX + 1 && |SlotsWhere(TxNatives(tx, n), true)| <= U16_MAX
    requires firstUid + U16_MAX <= U64_MAX && Keyed(TxNatives(tx, n))
    ensures AddOutputs(d, firstUid, height, tx, n).Ok?
    ensures var e := AddOutputs(d, firstUid, height, tx, n).value;
            && HeightsFit(e.live, height)
            && e.parts.slots == d.parts.slots + |TxNatives(tx, n)|
            && e.parts.inTx == |SlotsWhere(TxNatives(tx, n), true)|
            && |e.parts.outputs| == |d.parts.outputs| + e.parts.inTx
            && e.parts.tweaks == d.parts.tweaks && e.parts.spends == d.parts.spends
            && (tx.tweak.None? ==> e.parts.inTx == 0)
  {
    if n > 0 {
      var natives := TxNatives(tx, n);
      assert TxNatives(tx, n - 1) <= natives;
      assert forall p | 0 <= p < |TxNatives(tx, n - 1)| :: natives[p] == TxNatives(tx, n - 1)[p];
      if tx.outputs[n - 1].isP2tr {
        SlotsWhereAppend(TxNatives(tx, n - 1), natives[|natives| - 1], true);
      } else {
        assert natives == TxNatives(tx, n - 1);
      }
      OutputsSucceed(d, firstUid, height, tx, n - 1);
      if tx.outputs[n - 1].isP2tr {
        assert natives[|natives| - 1].key == tx.outputs[n - 1].key;
      }
    }
  }

  /** The bitmap and the tweak entries after `n` transactions: each is in exactly one of them. */
  ghost predicate TweaksScanned(s: Scan, txCount: nat, n: nat) {
    && ValidBitmap(txCount, s.bitmap) && n <= txCount
    && (forall t | n <= t < txCount :: !TxBit(s.bitmap, t))
    && SkippedCount(s.bitmap, txCount) + |s.draft.parts.tweaks| == n
    && OutputCount(s.draft.parts.tweaks) == |s.draft.parts.outputs|
  }

  lemma {:induction false} OutputCountAppend(tweaks: seq<TweakEntry>, e: TweakEntry)
    ensures OutputCount(tweaks + [e]) == OutputCount(tweaks) + e.outputCount
  {
    OutputsBeforePrefix(tweaks, tweaks + [e], |tweaks|);
  }

  lemma {:induction false} OutputsBeforePrefix(a: seq<TweakEntry>, b: seq<TweakEntry>, n: nat)
    requires n <= |a| && n <= |b| && forall i | 0 <= i < n :: a[i] == b[i]
    ensures OutputsBefore(a, n) == OutputsBefore(b, n)
  {
    if n > 0 { OutputsBeforePrefix(a, b, n - 1); }
  }

  lemma {:induction false} TxSucceeds(s: Scan, firstUid: nat, height: nat, txCount: nat, tx: Tx, n: nat)
    requires TweaksScanned(s, txCount, n) && n < txCount && tx.txIndex == n
    requires HeightsFit(s.draft.live, height) && height <= U32_MAX && firstUid + U16_MAX <= U64_MAX
    requires var natives := TxNatives(tx, |tx.outputs|);
             s.draft.parts.slots + |natives| <= U16_MAX + 1 && |SlotsWhere(natives, true)| <= U16_MAX && Keyed(natives)
    ensures ApplyTx(s, firstUid, height, txCount, tx).Ok?
    ensures var e := ApplyTx(s, firstUid, height, txCount, tx).value;
            && TweaksScanned(e, txCount, n + 1) && HeightsFit(e.draft.live, height)
            && e.draft.parts.slots == s.draft.parts.slots + |TxNatives(tx, |tx.outputs|)|
            && |e.draft.parts.spends| <= |s.draft.parts.spends| + |tx.inputs|
  {
    var reset := s.draft.(parts := s.draft.parts.(inTx := 0));
    InputsSucceed(reset, height, tx.inputs, |tx.inputs|);
    SpendInputsKeep(reset, height, tx.inputs, |tx.inputs|);
    var mid := SpendInputs(reset, height, tx.inputs, |tx.inputs|).value;
    OutputsSucceed(mid, firstUid, height, tx, |tx.outputs|);
    var d := AddOutputs(mid, firstUid, height, tx, |tx.outputs|).value;
    if d.parts.inTx > 0 {
      OutputCountAppend(d.parts.tweaks, TweakEntry(d.parts.inTx, tx.tweak.value));
    } else {
      OneMoreSkipped(s.bitmap, n, txCount);
      WithTxValid(txCount, s.bitmap, n);
      WithTxBits(s.bitmap, n);
    }
  }

  lemma {:induction false} NativesPrefix(txs: seq<Tx>, m: nat, n: nat)
    requires m <= n <= |txs|
    ensures Natives(txs, m) <= Natives(txs, n)
  {
    if m < n { NativesPrefix(txs, m, n - 1); }
  }

  lemma {:induction false} IndexedConcat(a: seq<Native>, b: seq<Native>)
    ensures |SlotsWhere(a + b, true)| == |SlotsWhere(a, true)| + |SlotsWhere(b, true)|
  {
    if b == [] {
      assert a + b == a;
    } else {
      var last := |b| - 1;
      IndexedConcat(a, b[..last]);
      SlotsWhereAppend(a + b[..last], b[last], true);
      assert a + b == a + b[..last] + [b[last]];
    }
  }

  lemma {:induction false} TxKeyed(txs: seq<Tx>, n: nat)
    requires 0 < n <= |txs| && Keyed(Natives(txs, |txs|))
    ensures Keyed(TxNatives(txs[n - 1], |txs[n - 1].outputs|))
  {
    var own := TxNatives(txs[n - 1], |txs[n - 1].outputs|);
    NativesPrefix(txs, n, |txs|);
    forall p | 0 <= p < |own|
      ensures own[p].key.Some?
    {
      assert Natives(txs, n)[|Natives(txs, n - 1)| + p] == own[p];
      assert Natives(txs, |txs|)[|Natives(txs, n - 1)| + p] == own[p];
    }
  }

  /** A transaction's native outputs are among the block's. */
  lemma {:induction false} TxNativesWithin(b: Block, n: nat)
    requires WellFormed(b) && 0 < n <= |b.txs|
    ensures Keyed(TxNatives(b.txs[n - 1], |b.txs[n - 1].outputs|))
    ensures |Natives(b.txs, n - 1)| + |TxNatives(b.txs[n - 1], |b.txs[n - 1].outputs|)| <= U16_MAX + 1
    ensures |SlotsWhere(TxNatives(b.txs[n - 1], |b.txs[n - 1].outputs|), true)| <= U16_MAX
  {
    var all, own := BlockNatives(b), TxNatives(b.txs[n - 1], |b.txs[n - 1].outputs|);
    TxKeyed(b.txs, n);
    NativesPrefix(b.txs, n, |b.txs|);
    var end := |Natives(b.txs, n)|;
    IndexedConcat(Natives(b.txs, n - 1), own);
    IndexedConcat(Natives(b.txs, n), all[end..]);
    assert all == Natives(b.txs, n) + all[end..];
  }

  lemma {:induction false} TxsSucceed(m: Memory, firstUid: nat, b: Block, n: nat)
    requires WellFormed(b) && HeightsFit(m.live, b.height) && firstUid + U16_MAX <= U64_MAX && n <= |b.txs|
    ensures ApplyTxs(ScanStart(m, b), firstUid, b, n).Ok?
    ensures var e := ApplyTxs(ScanStart(m, b), firstUid, b, n).value;
            && TweaksScanned(e, |b.txs|, n) && HeightsFit(e.draft.live, b.height)
            && e.draft.parts.slots == |Natives(b.txs, n)|
            && |e.draft.parts.spends| <= InputCount(b.txs, n)
  {
    if n == 0 {
      EmptyBitmapBits(|b.txs|);
      EmptyBitmapCount(|b.txs|, |b.txs|);
    } else {
      TxsSucceed(m, firstUid, b, n - 1);
      TxNativesWithin(b, n);
      TxSucceeds(ApplyTxs(ScanStart(m, b), firstUid, b, n - 1).value, firstUid, b.height, |b.txs|, b.txs[n - 1], n - 1);
    }
  }

  // ---- The assembled block is valid ----------------------------------------------------------------

  /** Different live outputs have different UIDs, none above `last`. */
  ghost predicate UidsBelow(refs: Refs, last: nat) {
    && (forall o | o in refs :: refs[o].uid <= last)
    && (forall o, p | o in refs && p in refs && refs[o].uid == refs[p].uid :: o == p)
  }

  /** UIDs stay different when a block's are added above the last one. */
  lemma {:induction false} UidsStayApart(live: Refs, lastUid: nat, p: Parts, natives: seq<Native>)
    requires UidsBelow(live, lastUid) && SlotsScanned(p, lastUid + 1, natives)
    ensures UidsBelow(live + CreatedMap(p.created), lastUid + |natives|)
  {
    var refs := live + CreatedMap(p.created);
    forall o | o in CreatedMap(p.created)
      ensures lastUid < refs[o].uid <= lastUid + |natives|
    {
      var k := CreatedRecordOf(p.created, o);
    }
    forall o, q | o in refs && q in refs && refs[o].uid == refs[q].uid
      ensures o == q
    {
      if o in CreatedMap(p.created) && q in CreatedMap(p.created) {
        var k := CreatedRecordOf(p.created, o);
        var l := CreatedRecordOf(p.created, q);
        if k < l { SlotsAscendApart(natives, true, k, l); }
        if l < k { SlotsAscendApart(natives, true, l, k); }
      }
    }
  }

  lemma {:induction false} SpentUidsApart(spent: seq<Spent>, spends: seq<StoredSpend>, refs: Refs, height: nat,
                                          last: nat)
    requires SpentMatches(spent, spends, refs, height) && SpentApart(spent) && UidsBelow(refs, last)
    ensures SpentIds.Distinct(SpentUids(spends))
    ensures forall k | 0 <= k < |spends| :: spends[k].spentUid <= last
  {
    forall i, j | 0 <= i < j < |spends|
      ensures SpentUids(spends)[i] != SpentUids(spends)[j]
    {
      assert spent[i].outpoint != spent[j].outpoint;
    }
  }

  /** Spends that can be encoded and do not come from above `height`. */
  ghost predicate SpendsFit(spends: seq<StoredSpend>, height: nat) {
    && SpentIds.Distinct(SpentUids(spends))
    && forall k | 0 <= k < |spends| :: spends[k].spentUid < U64_MAX && spends[k].creationHeight <= height
  }

  lemma {:induction false} RefHeights(live: Refs, created: seq<Created>, outputs: seq<StoredOutput>, height: nat)
    requires HeightsFit(live, height) && CreatedMatches(created, outputs, height)
    ensures HeightsFit(live + CreatedMap(created), height)
  {
    forall o | o in CreatedMap(created)
      ensures CreatedMap(created)[o].creationHeight <= height
    {
      var k := CreatedRecordOf(created, o);
    }
  }

  lemma {:induction false} ScannedSpendsFit(m: Memory, b: Block, d: Draft, ins: set<OutPoint>, outs: set<OutPoint>)
    requires Scanned(m.live, d, b.height, ins, outs) && SlotsScanned(d.parts, m.lastUid + 1, BlockNatives(b))
    requires HeightsFit(m.live, b.height) && UidsBelow(m.live, m.lastUid) && m.lastUid + |BlockNatives(b)| < U64_MAX
    ensures SpendsFit(d.parts.spends, b.height)
  {
    var p := d.parts;
    UidsStayApart(m.live, m.lastUid, p, BlockNatives(b));
    RefHeights(m.live, p.created, p.outputs, b.height);
    SpentUidsApart(p.spent, p.spends, m.live + CreatedMap(p.created), b.height, m.lastUid + |BlockNatives(b)|);
  }

  lemma {:induction false} RespondsToManyLabels(s: StoredBlock, height: nat)
    requires ValidBitmap(s.txCount, s.skippedTxs) && |s.tweaks| <= U16_MAX
    requires s.txCount == SkippedCount(s.skippedTxs, s.txCount) + |s.tweaks|
    requires OutputCount(s.tweaks) == |s.outputs| && HashLengths(s) && s.rawBytes > 0
    requires SpendsFit(s.spends, height) && |s.spends| <= U32_MAX
    ensures ResponseForLabels(s, None).Ok?
  {
    var bits := ChooseHashBits(|s.outputs|, s.rawBytes, BUDGET_HUNDRED);
    HashBitsRange(|s.outputs|, s.rawBytes, BUDGET_HUNDRED);
    if s.spends != [] {
      assert SpentUids(s.spends)[0] < U64_MAX;
    }
    Serving.EncodableIff(SpentUids(s.spends));
    Serving.ServeSucceeds(s, s.skippedTxs, s.tweaks, bits, s.hashesForHundredLabels, SpentUids(s.spends));
  }

  lemma {:induction false} AssembledLayout(hash: Hasher, b: Block, firstUid: nat, s: Scan)
    requires SlotsScanned(s.draft.parts, firstUid, BlockNatives(b))
    ensures var stored := Assemble(hash, b, firstUid, s.draft.parts, s.bitmap);
            && |stored.outputs| + |stored.skippedOutputs| == |BlockNatives(b)|
            && SortedUnique(stored.skippedOutputs) && SlotDomain(|stored.outputs|, stored.skippedOutputs)
            && HashLengths(stored)
  {
    SlotsPartition(BlockNatives(b));
    SlotsAscend(BlockNatives(b), false);
  }

  lemma {:induction false} AssembledIsValid(hash: Hasher, b: Block, firstUid: nat, s: Scan)
    requires b.rawBytes > 0 && b.height <= U32_MAX && |b.txs| <= U16_MAX && TweaksScanned(s, |b.txs|, |b.txs|)
    requires SlotsScanned(s.draft.parts, firstUid, BlockNatives(b)) && NativesFit(BlockNatives(b))
    requires SpendsFit(s.draft.parts.spends, b.height) && |s.draft.parts.spends| <= U32_MAX
    ensures ValidStored(Assemble(hash, b, firstUid, s.draft.parts, s.bitmap))
  {
    AssembledLayout(hash, b, firstUid, s);
    RespondsToManyLabels(Assemble(hash, b, firstUid, s.draft.parts, s.bitmap), b.height);
  }

  /** A stored block that passes validation and whose spent UIDs stay below the largest word. */
  ghost predicate Servable(s: StoredBlock) {
    && ValidStored(s) && s.rawBytes > 0
    && forall k | 0 <= k < |s.spends| :: s.spends[k].spentUid < U64_MAX
  }

  lemma {:induction false} WellFormedScans(m: Memory, b: Block, firstUid: nat) returns (s: Scan)
    requires WellFormed(b) && Ordered(b.txs) && HeightsFit(m.live, b.height)
    requires UidsBelow(m.live, m.lastUid) && m.lastUid + U16_MAX + 1 < U64_MAX && firstUid == m.lastUid + 1
    ensures ApplyTxs(ScanStart(m, b), firstUid, b, |b.txs|) == Ok(s)
    ensures TweaksScanned(s, |b.txs|, |b.txs|) && SlotsScanned(s.draft.parts, firstUid, BlockNatives(b))
    ensures SpendsFit(s.draft.parts.spends, b.height) && |s.draft.parts.spends| <= U32_MAX
  {
    TxsSucceed(m, firstUid, b, |b.txs|);
    s := ApplyTxs(ScanStart(m, b), firstUid, b, |b.txs|).value;
    ScannedTxs(m, firstUid, b, |b.txs|);
    SlotsScannedTxs(ScanStart(m, b), firstUid, b, |b.txs|);
    ScannedSpendsFit(m, b, s.draft, InputsUpTo(b.txs, |b.txs|), OutputsUpTo(b.txs, |b.txs|));
  }

  lemma {:induction false} ScannedBlockApplies(hash: Hasher, m: Memory, b: Block, s: Scan)
    requires |b.txs| <= U16_MAX && ApplyTxs(ScanStart(m, b), FirstUid(m.lastUid), b, |b.txs|) == Ok(s)
    requires NextUid(m.lastUid, s.draft.parts.slots).Ok?
    requires Servable(Assemble(hash, b, FirstUid(m.lastUid), s.draft.parts, s.bitmap))
    ensures ApplyBlock(hash, m, b).Ok? && Servable(ApplyBlock(hash, m, b).value.1.stored)
  {
  }

  /** A well-formed block is applied, and what is assembled from it passes stored validation. */
  lemma {:induction false} WellFormedApplies(hash: Hasher, m: Memory, b: Block)
    requires WellFormed(b) && Ordered(b.txs) && HeightsFit(m.live, b.height)
    requires UidsBelow(m.live, m.lastUid) && m.lastUid + U16_MAX + 1 < U64_MAX
    ensures ApplyBlock(hash, m, b).Ok? && Servable(ApplyBlock(hash, m, b).value.1.stored)
  {
    var s := WellFormedScans(m, b, FirstUid(m.lastUid));
    AssembledIsServable(hash, b, FirstUid(m.lastUid), s);
    ScannedBlockApplies(hash, m, b, s);
  }

  lemma {:induction false} AssembledIsServable(hash: Hasher, b: Block, firstUid: nat, s: Scan)
    requires WellFormed(b) && TweaksScanned(s, |b.txs|, |b.txs|)
        && SlotsScanned(s.draft.parts, firstUid, BlockNatives(b))
    requires SpendsFit(s.draft.parts.spends, b.height) && |s.draft.parts.spends| <= U32_MAX
    ensures Servable(Assemble(hash, b, firstUid, s.draft.parts, s.bitmap))
  {
    AssembledIsValid(hash, b, firstUid, s);
  }
}
