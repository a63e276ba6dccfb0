/** Native outputs in chain order: the list that UIDs count. */
module NativeOutputs {
  import opened Wrappers
  import opened Words
  import opened HashPacking
  import opened LightBlock
  import opened Chain
  import opened Indexer
  import opened BlockEffect

  /** A P2TR output; only indexed ones are stored. */
  datatype Native = Native(outpoint: OutPoint, key: Option<Key>, indexed: bool)

  function TxNatives(tx: Tx, n: nat): seq<Native>
    requires n <= |tx.outputs|
  {
    if n == 0 then []
    else
      var output := tx.outputs[n - 1];
      TxNatives(tx, n - 1)
      + (if output.isP2tr
         then [Native(OutPoint(tx.txid, output.vout), output.key, !output.isNums && tx.tweak.Some?)]
         else [])
  }

  function Natives(txs: seq<Tx>, n: nat): seq<Native>
    requires n <= |txs|
  {
    if n == 0 then [] else Natives(txs, n - 1) + TxNatives(txs[n - 1], |txs[n - 1].outputs|)
  }

  function BlockNatives(b: Block): seq<Native> {
    Natives(b.txs, |b.txs|)
  }

  function ChainNatives(chain: seq<Block>, n: nat): seq<Native>
    requires n <= |chain|
  {
    if n == 0 then [] else ChainNatives(chain, n - 1) + BlockNatives(chain[n - 1])
  }

  /** The positions of the native outputs whose `indexed` flag is `flag`, ascending. */
  function SlotsWhere(natives: seq<Native>, flag: bool): (slots: seq<nat>)
    ensures |slots| <= |natives|
    ensures forall k | 0 <= k < |slots| :: slots[k] < |natives| && natives[slots[k]].indexed == flag
  {
    if natives == [] then []
    else
      var last := |natives| - 1;
      SlotsWhere(natives[..last], flag) + (if natives[last].indexed == flag then [last] else [])
  }

  lemma {:induction false} SlotsWhereAppend(natives: seq<Native>, x: Native, flag: bool)
    ensures SlotsWhere(natives + [x], flag)
         == SlotsWhere(natives, flag) + (if x.indexed == flag then [|natives|] else [])
  {
    assert (natives + [x])[..|natives|] == natives;
  }

  lemma {:induction false} SlotsAscend(natives: seq<Native>, flag: bool)
    ensures SortedUnique(SlotsWhere(natives, flag))
  {
    if natives != [] { SlotsAscend(natives[..|natives| - 1], flag); }
  }

  lemma {:induction false} SlotsAscendApart(natives: seq<Native>, flag: bool, p: nat, q: nat)
    requires p < q < |SlotsWhere(natives, flag)|
    ensures SlotsWhere(natives, flag)[p] < SlotsWhere(natives, flag)[q]
    decreases q
  {
    SlotsAscend(natives, flag);
    if p < q - 1 { SlotsAscendApart(natives, flag, p, q - 1); }
  }

  lemma {:induction false} SlotsPartition(natives: seq<Native>)
    ensures |SlotsWhere(natives, true)| + |SlotsWhere(natives, false)| == |natives|
  {
    if natives != [] { SlotsPartition(natives[..|natives| - 1]); }
  }

  // ---- What a scan does with them ------------------------------------------------------

  /** The draft has stored exactly the indexed natives, in order, at UIDs counted from `firstUid`. */
  ghost predicate SlotsScanned(p: Parts, firstUid: nat, natives: seq<Native>) {
    var dense := SlotsWhere(natives, true);
    && p.slots == |natives| <= U16_MAX + 1
    && p.skippedOutputs == SlotsWhere(natives, false)
    && |p.created| == |p.outputs| == |dense|
    && forall k | 0 <= k < |dense| ::
         && p.created[k].outpoint == natives[dense[k]].outpoint
         && p.created[k].ref.uid == firstUid + dense[k]
         && p.created[k].ref.uid <= U64_MAX
         && natives[dense[k]].key == Some(p.outputs[k].key)
  }

  lemma {:induction false} SlotsScannedStep(p: Parts, q: Parts, firstUid: nat, natives: seq<Native>, x: Native)
    requires SlotsScanned(p, firstUid, natives) && q.slots == p.slots + 1 <= U16_MAX + 1
    requires x.indexed ==>
      && q.skippedOutputs == p.skippedOutputs && |q.created| == |p.created| + 1
      && q.created == p.created + [Created(x.outpoint, q.created[|p.created|].ref)]
      && q.created[|p.created|].ref.uid == firstUid + p.slots <= U64_MAX
      && x.key.Some? && |q.outputs| == |p.outputs| + 1
      && q.outputs == p.outputs + [q.outputs[|p.outputs|]] && q.outputs[|p.outputs|].key == x.key.value
    requires !x.indexed ==>
      q.skippedOutputs == p.skippedOutputs + [p.slots] && q.created == p.created && q.outputs == p.outputs
    ensures SlotsScanned(q, firstUid, natives + [x])
  {
    SlotsWhereAppend(natives, x, true);
    SlotsWhereAppend(natives, x, false);
    var dense, all := SlotsWhere(natives, true), natives + [x];
    assert all[|natives|] == x;
    forall k | 0 <= k < |dense|
      ensures all[dense[k]] == natives[dense[k]]
    {
    }
  }

  lemma {:induction false} SlotsScannedOutputs(d: Draft, firstUid: nat, height: nat, tx: Tx, n: nat,
                                               natives: seq<Native>)
    requires n <= |tx.outputs| && AddOutputs(d, firstUid, height, tx, n).Ok? && SlotsScanned(d.parts, firstUid, natives)
    ensures SlotsScanned(AddOutputs(d, firstUid, height, tx, n).value.parts, firstUid, natives + TxNatives(tx, n))
  {
    if n == 0 {
      assert natives + [] == natives;
    } else {
      SlotsScannedOutputs(d, firstUid, height, tx, n - 1, natives);
      var front, front' := AddOutputs(d, firstUid, height, tx, n - 1).value,
        AddOutputs(d, firstUid, height, tx, n).value;
      var output := tx.outputs[n - 1];
      if output.isP2tr {
        var x := Native(OutPoint(tx.txid, output.vout), output.key, !output.isNums && tx.tweak.Some?);
        SlotsScannedStep(front.parts, front'.parts, firstUid, natives + TxNatives(tx, n - 1), x);
        assert natives + TxNatives(tx, n) == natives + TxNatives(tx, n - 1) + [x];
      } else {
        assert TxNatives(tx, n) == TxNatives(tx, n - 1);
      }
    }
  }

  lemma {:induction false} SlotsScannedTxs(s: Scan, firstUid: nat, b: Block, n: nat)
    requires s.draft.parts == NO_PARTS
    requires n <= |b.txs| && ApplyTxs(s, firstUid, b, n).Ok?
    ensures SlotsScanned(ApplyTxs(s, firstUid, b, n).value.draft.parts, firstUid, Natives(b.txs, n))
  {
    if n > 0 {
      SlotsScannedTxs(s, firstUid, b, n - 1);
      var front := ApplyTxs(s, firstUid, b, n - 1).value.draft;
      var tx := b.txs[n - 1];
      var reset := front.(parts := front.parts.(inTx := 0));
      SpendInputsKeep(reset, b.height, tx.inputs, |tx.inputs|);
      SlotsScannedOutputs(SpendInputs(reset, b.height, tx.inputs, |tx.inputs|).value, firstUid, b.height,
                          tx, |tx.outputs|, Natives(b.txs, n - 1));
    }
  }

  /** A block numbers its native outputs consecutively and stores the indexed ones. */
  ghost predicate NumbersNatives(m: Memory, b: Block, next: Memory, a: Applied) {
    var natives := BlockNatives(b);
    var dense := SlotsWhere(natives, true);
    && a.stored.firstUid == (if m.lastUid < U64_MAX then m.lastUid + 1 else U64_MAX)
    && next.lastUid == m.lastUid + |natives| && |natives| <= U16_MAX + 1
    && (natives != [] ==> next.lastUid < U64_MAX)
    && a.stored.skippedOutputs == SlotsWhere(natives, false)
    && |a.created| == |a.stored.outputs| == |dense|
    && forall k | 0 <= k < |dense| ::
         && a.created[k].outpoint == natives[dense[k]].outpoint
         && a.created[k].ref.uid == a.stored.firstUid + dense[k]
         && a.created[k].ref.uid <= U64_MAX
         && natives[dense[k]].key == Some(a.stored.outputs[k].key)
  }

  lemma {:induction false} BlockNumbersNatives(hash: Hasher, m: Memory, b: Block)
    requires ApplyBlock(hash, m, b).Ok?
    ensures var (next, a) := ApplyBlock(hash, m, b).value; NumbersNatives(m, b, next, a)
  {
    SlotsScannedTxs(ScanStart(m, b), FirstUid(m.lastUid), b, |b.txs|);
  }

  // ---- The client's reading of the skipped slots -----------------------------------------

  /** The slots below `n` that are not skipped, ascending. */
  function FreeSlots(skipped: seq<nat>, n: nat): (slots: seq<nat>)
    ensures |slots| <= n
  {
    if n == 0 then [] else FreeSlots(skipped, n - 1) + (if n - 1 in skipped then [] else [n - 1])
  }

  lemma {:induction false} FreeSlotsIgnoreLarge(skipped: seq<nat>, large: nat, n: nat)
    requires n <= large
    ensures FreeSlots(skipped + [large], n) == FreeSlots(skipped, n)
  {
    if n > 0 { FreeSlotsIgnoreLarge(skipped, large, n - 1); }
  }

  lemma {:induction false} FreeSlotsAreDense(natives: seq<Native>)
    ensures FreeSlots(SlotsWhere(natives, false), |natives|) == SlotsWhere(natives, true)
  {
    if natives != [] {
      var front, n := natives[..|natives| - 1], |natives|;
      FreeSlotsAreDense(front);
      assert natives == front + [natives[n - 1]];
      SlotsWhereAppend(front, natives[n - 1], true);
      SlotsWhereAppend(front, natives[n - 1], false);
      var skipped := SlotsWhere(front, false);
      if natives[n - 1].indexed {
        assert SlotsWhere(natives, false) == skipped;
        assert forall k | 0 <= k < |skipped| :: skipped[k] < n - 1;
      } else {
        assert (skipped + [n - 1])[|skipped|] == n - 1;
        FreeSlotsIgnoreLarge(skipped, n - 1, n - 1);
      }
    }
  }

  /** The UIDs of the dense outputs, read off the stored block alone. */
  function OutputUids(s: StoredBlock): (uids: seq<nat>)
  {
    var free := FreeSlots(s.skippedOutputs, |s.outputs| + |s.skippedOutputs|);
    seq(|free|, k requires 0 <= k < |free| => s.firstUid + free[k])
  }

  lemma {:induction false} OutputUidsAre(s: StoredBlock, natives: seq<Native>)
    requires s.skippedOutputs == SlotsWhere(natives, false) && |s.outputs| == |SlotsWhere(natives, true)|
    ensures |OutputUids(s)| == |s.outputs|
    ensures forall k | 0 <= k < |s.outputs| :: OutputUids(s)[k] == s.firstUid + SlotsWhere(natives, true)[k]
  {
    SlotsPartition(natives);
    FreeSlotsAreDense(natives);
  }

  /** The `k`-th dense output has the UID `firstUid` plus the `k`-th slot that is not skipped. */
  lemma {:induction false} DenseOutputUids(m: Memory, b: Block, next: Memory, a: Applied)
    requires NumbersNatives(m, b, next, a)
    ensures |OutputUids(a.stored)| == |a.created| == |a.stored.outputs|
    ensures forall k | 0 <= k < |a.created| :: OutputUids(a.stored)[k] == a.created[k].ref.uid
  {
    OutputUidsAre(a.stored, BlockNatives(b));
  }
}
