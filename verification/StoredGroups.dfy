/** Which transaction each stored tweak belongs to, and what a client reads for it. */
module StoredGroups {
  import opened Wrappers
  import opened Seqs
  import opened HashPacking
  import opened TxBitmap
  import opened LightBlock
  import opened Chain
  import opened Indexer
  import opened BlockEffect
  import opened NativeOutputs
  import opened Filtering

  /** How many outputs of a transaction are stored. */
  function IndexedIn(tx: Tx): nat {
    |SlotsWhere(TxNatives(tx, |tx.outputs|), true)|
  }

  /** The positions of the first `n` transactions that have stored outputs. */
  function GroupTxs(txs: seq<Tx>, n: nat): seq<nat>
    requires n <= |txs|
  {
    if n == 0 then [] else GroupTxs(txs, n - 1) + (if IndexedIn(txs[n - 1]) > 0 then [n - 1] else [])
  }

  /** Their output counts and tweaks. */
  function GroupEntries(txs: seq<Tx>, n: nat): seq<TweakEntry>
    requires n <= |txs|
  {
    if n == 0 then []
    else
      var tx := txs[n - 1];
      GroupEntries(txs, n - 1)
      + (if IndexedIn(tx) > 0 && tx.tweak.Some? then [TweakEntry(IndexedIn(tx), tx.tweak.value)] else [])
  }

  lemma {:induction false} InTxCounts(d: Draft, firstUid: nat, height: nat, tx: Tx, n: nat)
    requires n <= |tx.outputs| && AddOutputs(d, firstUid, height, tx, n).Ok?
    ensures var p := AddOutputs(d, firstUid, height, tx, n).value.parts;
            p.inTx == d.parts.inTx + |SlotsWhere(TxNatives(tx, n), true)| && p.tweaks == d.parts.tweaks
  {
    if n > 0 {
      InTxCounts(d, firstUid, height, tx, n - 1);
      var output := tx.outputs[n - 1];
      if output.isP2tr {
        SlotsWhereAppend(TxNatives(tx, n - 1),
                         Native(OutPoint(tx.txid, output.vout), output.key, !output.isNums && tx.tweak.Some?), true);
      } else {
        assert TxNatives(tx, n) == TxNatives(tx, n - 1);
      }
    }
  }

  lemma {:induction false} ScanTxCounts(d: Draft, firstUid: nat, height: nat, tx: Tx)
    requires ScanTx(d, firstUid, height, tx).Ok?
    ensures var p := ScanTx(d, firstUid, height, tx).value.parts; p.inTx == IndexedIn(tx) && p.tweaks == d.parts.tweaks
  {
    var reset := d.(parts := d.parts.(inTx := 0));
    SpendInputsKeep(reset, height, tx.inputs, |tx.inputs|);
    InTxCounts(SpendInputs(reset, height, tx.inputs, |tx.inputs|).value, firstUid, height, tx, |tx.outputs|);
  }

  /** After `n` transactions: marked are exactly those without stored outputs, and the others have their entries. */
  ghost predicate GroupsScanned(s: Scan, txs: seq<Tx>, n: nat)
    requires n <= |txs|
  {
    && ValidBitmap(|txs|, s.bitmap)
    && (forall t | 0 <= t < |txs| :: TxBit(s.bitmap, t) <==> t < n && IndexedIn(txs[t]) == 0)
    && s.draft.parts.tweaks == GroupEntries(txs, n)
  }

  lemma {:induction false} GroupsScannedTx(s: Scan, firstUid: nat, height: nat, txs: seq<Tx>, n: nat)
    requires n < |txs| && txs[n].txIndex == n && GroupsScanned(s, txs, n)
    requires ApplyTx(s, firstUid, height, |txs|, txs[n]).Ok?
    ensures GroupsScanned(ApplyTx(s, firstUid, height, |txs|, txs[n]).value, txs, n + 1)
  {
    ScanTxCounts(s.draft, firstUid, height, txs[n]);
    if IndexedIn(txs[n]) == 0 {
      WithTxValid(|txs|, s.bitmap, n);
      WithTxBits(s.bitmap, n);
    }
  }

  lemma {:induction false} GroupsScannedTxs(m: Memory, firstUid: nat, b: Block, n: nat)
    requires n <= |b.txs| && (forall t | 0 <= t < |b.txs| :: b.txs[t].txIndex == t)
    requires ApplyTxs(ScanStart(m, b), firstUid, b, n).Ok?
    ensures GroupsScanned(ApplyTxs(ScanStart(m, b), firstUid, b, n).value, b.txs, n)
  {
    if n == 0 {
      EmptyBitmapBits(|b.txs|);
    } else {
      GroupsScannedTxs(m, firstUid, b, n - 1);
      GroupsScannedTx(ApplyTxs(ScanStart(m, b), firstUid, b, n - 1).value, firstUid, b.height, b.txs, n - 1);
    }
  }

  lemma {:induction false} UnskippedAreGroups(bitmap: seq<bv8>, txs: seq<Tx>, n: nat)
    requires n <= |txs| <= 8 * |bitmap| && forall t | 0 <= t < |txs| :: TxBit(bitmap, t) <==> IndexedIn(txs[t]) == 0
    ensures Unskipped(bitmap, n) == GroupTxs(txs, n)
  {
    if n > 0 { UnskippedAreGroups(bitmap, txs, n - 1); }
  }

  /** Exactly the tweaks of the transactions with stored outputs are stored, in order, each at its transaction. */
  ghost predicate StoresGroups(b: Block, s: StoredBlock) {
    && ValidBitmap(|b.txs|, s.skippedTxs) && s.txCount == |b.txs|
    && Unskipped(s.skippedTxs, s.txCount) == GroupTxs(b.txs, |b.txs|)
    && s.tweaks == GroupEntries(b.txs, |b.txs|)
  }

  lemma {:induction false} BlockStoresGroups(hash: Hasher, m: Memory, b: Block)
    requires (forall t | 0 <= t < |b.txs| :: b.txs[t].txIndex == t) && ApplyBlock(hash, m, b).Ok?
    ensures StoresGroups(b, ApplyBlock(hash, m, b).value.1.stored)
  {
    var firstUid := FirstUid(m.lastUid);
    GroupsScannedTxs(m, firstUid, b, |b.txs|);
    UnskippedAreGroups(ApplyTxs(ScanStart(m, b), firstUid, b, |b.txs|).value.bitmap, b.txs, |b.txs|);
  }

  // ---- The unfiltered response -----------------------------------------------------------------------------

  /** The hash streams are those of the stored keys. */
  ghost predicate HashesOfKeys(hash: Hasher, s: StoredBlock) {
    var two := ChooseHashBits(|s.outputs|, s.rawBytes, BUDGET_TWO);
    var hundred := ChooseHashBits(|s.outputs|, s.rawBytes, BUDGET_HUNDRED);
    && two < 256 && s.hashesForTwoLabels == PackedHashes(hash, OutputKeys(s.outputs), two)
    && hundred < 256 && s.hashesForHundredLabels == PackedHashes(hash, OutputKeys(s.outputs), hundred)
  }

  lemma {:induction false} AssembledHashes(hash: Hasher, b: Block, firstUid: nat, p: Parts, bitmap: seq<bv8>)
    ensures HashesOfKeys(hash, Assemble(hash, b, firstUid, p, bitmap))
  {
    HashBitsRange(|p.outputs|, b.rawBytes, BUDGET_TWO);
    HashBitsRange(|p.outputs|, b.rawBytes, BUDGET_HUNDRED);
  }

  lemma {:induction false} KeepEverything(outputs: seq<StoredOutput>, lo: nat, hi: nat, height: nat, f: Filter)
    requires lo <= hi <= |outputs| && Unfiltered(f)
    ensures Keep(outputs, lo, hi, height, f) == outputs[lo..hi]
  {
    if lo < hi {
      KeepEverything(outputs, lo, hi - 1, height, f);
      assert outputs[lo..hi] == outputs[lo..hi - 1] + [outputs[hi - 1]];
    }
  }

  ghost predicate NoEmptyGroup(tweaks: seq<TweakEntry>) {
    forall i | 0 <= i < |tweaks| :: tweaks[i].outputCount > 0
  }

  /** Without a filter no group is dropped. */
  lemma {:induction false} AllGroupsKept(s: StoredBlock, f: Filter, n: nat)
    requires GroupedUpTo(s, n) && NoEmptyGroup(s.tweaks) && Unfiltered(f)
    ensures var groups := KeptGroups(s, f, n);
            EntriesOf(groups) == s.tweaks[..n] && TxsOf(groups) == Unskipped(s.skippedTxs, s.txCount)[..n]
  {
    if n > 0 {
      AllGroupsKept(s, f, n - 1);
      var groups, g := KeptGroups(s, f, n - 1), KeptGroup(s, f, n - 1);
      KeepEverything(s.outputs, OutputsBefore(s.tweaks, n - 1), OutputsBefore(s.tweaks, n), s.height, f);
      assert |g.outputs| == s.tweaks[n - 1].outputCount;
      TakeNext(s.tweaks, n);
      TakeNext(Unskipped(s.skippedTxs, s.txCount), n);
      TxsOfAppend(groups, g);
      assert EntriesOf(groups + [g]) == EntriesOf(groups) + [s.tweaks[n - 1]];
    }
  }

  /**
   * Walking an unfiltered response gives every stored group whole: its transaction, its tweak and
   * the truncated hash of each of its outputs.
   */
  lemma {:induction false} FullWalk(hash: Hasher, s: StoredBlock, f: Filter)
    requires Grouped(s) && |Unskipped(s.skippedTxs, s.txCount)| == |s.tweaks| && NoEmptyGroup(s.tweaks)
    requires HashesOfKeys(hash, s) && s.rawBytes > 0 && Unfiltered(f) && ResponseForLabels(s, f.labels).Ok?
    ensures var b := ResponseForLabels(s, f.labels).value;
            && Walkable(b) && b.hashBits < 256
            && Walk(b) == ServeGroups(hash, KeptGroups(s, f, |s.tweaks|), b.hashBits)
  {
    var b := ResponseForLabels(s, f.labels).value;
    var groups := KeptGroups(s, f, |s.tweaks|);
    HashBitsRange(|s.outputs|, s.rawBytes, LabelBudget(f.labels));
    ValidLightIsWalkable(b);
    AllGroupsKept(s, f, |s.tweaks|);
    KeptOutputs(s, f, |s.tweaks|);
    KeepEverything(s.outputs, 0, |s.outputs|, s.height, f);
    assert s.tweaks[..|s.tweaks|] == s.tweaks && s.outputs[0..|s.outputs|] == s.outputs;
    if s.outputs == [] {
      GroupsAreCovered(s.tweaks, |s.tweaks|);
      assert Walk(b) == ServeGroups(hash, groups, b.hashBits);
    } else {
      WalkOfGroups(hash, groups, b);
    }
  }

  /** Filtered or not, walking what is derived gives the kept groups. */
  lemma {:induction false} DerivedWalk(hash: Hasher, s: StoredBlock, f: Filter)
    requires Grouped(s) && |Unskipped(s.skippedTxs, s.txCount)| == |s.tweaks| && NoEmptyGroup(s.tweaks)
    requires HashesOfKeys(hash, s) && s.rawBytes > 0 && Derived(hash, s, f).Ok?
    ensures var b := Derived(hash, s, f).value;
            && Walkable(b) && b.hashBits < 256
            && Walk(b) == ServeGroups(hash, KeptGroups(s, f, |s.tweaks|), b.hashBits)
  {
    if Unfiltered(f) {
      FullWalk(hash, s, f);
    } else {
      FilteringIsHomomorphic(hash, s, f);
    }
  }

  /** With no empty group there are at least as many outputs as groups. */
  lemma {:induction false} GroupsAreCovered(tweaks: seq<TweakEntry>, n: nat)
    requires NoEmptyGroup(tweaks) && n <= |tweaks|
    ensures OutputsBefore(tweaks, n) >= n
  {
    if n > 0 { GroupsAreCovered(tweaks, n - 1); }
  }
}
