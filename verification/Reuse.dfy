/** Which outputs are flagged as reused when the indexer tracks keys, and what the reuse filter omits. */
module Reuse {
  import opened Wrappers
  import opened Words
  import opened HashPacking
  import opened LightBlock
  import opened Filtering
  import opened Chain
  import opened Indexer
  import opened BlockEffect
  import opened NativeOutputs
  import opened Ledger

  ghost function KeysOf(natives: seq<Native>): set<Key> {
    set p | 0 <= p < |natives| && natives[p].key.Some? :: natives[p].key.value
  }

  lemma {:induction false} KeysAppend(natives: seq<Native>, x: Native)
    ensures KeysOf(natives + [x]) == KeysOf(natives) + (if x.key.Some? then {x.key.value} else {})
  {
    var more := natives + [x];
    forall key | key in KeysOf(natives)
      ensures key in KeysOf(more)
    {
      var p :| 0 <= p < |natives| && natives[p].key == Some(key);
      assert more[p].key == Some(key);
    }
    assert more[|natives|] == x;
  }

  lemma {:induction false} KeysConcat(a: seq<Native>, b: seq<Native>)
    ensures KeysOf(a + b) == KeysOf(a) + KeysOf(b)
  {
    if b == [] {
      assert a + b == a;
    } else {
      var front, last := b[..|b| - 1], b[|b| - 1];
      KeysConcat(a, front);
      KeysAppend(a + front, last);
      KeysAppend(front, last);
      assert a + b == a + front + [last] && b == front + [last];
    }
  }

  // ---- One block ------------------------------------------------------------------------------------------

  /** The key of the native at `slot` is known, or an earlier one of `natives` has it. */
  ghost predicate KeyBefore(known: set<Key>, natives: seq<Native>, slot: nat)
    requires slot < |natives|
  {
    natives[slot].key.Some? && natives[slot].key.value in known + KeysOf(natives[..slot])
  }

  ghost predicate FlagAt(outputs: seq<StoredOutput>, known: set<Key>, natives: seq<Native>, k: nat)
    requires k < |outputs| == |SlotsWhere(natives, true)|
  {
    outputs[k].reused <==> KeyBefore(known, natives, SlotsWhere(natives, true)[k])
  }

  /** The stored outputs that repeat a key are flagged, and no others. */
  ghost predicate Flagged(outputs: seq<StoredOutput>, known: set<Key>, natives: seq<Native>) {
    && |outputs| == |SlotsWhere(natives, true)|
    && forall k | 0 <= k < |outputs| :: FlagAt(outputs, known, natives, k)
  }

  /** From the keys `known` on, a draft has seen those of `natives` and flagged their repetitions. */
  ghost predicate Tracked(d: Draft, known: set<Key>, natives: seq<Native>) {
    d.seen == Some(known + KeysOf(natives)) && Flagged(d.parts.outputs, known, natives)
  }

  lemma {:induction false} FlaggedAppend(outputs: seq<StoredOutput>, more: seq<StoredOutput>, known: set<Key>,
                                         natives: seq<Native>, x: Native)
    requires Flagged(outputs, known, natives)
    requires if x.indexed
             then |more| == |outputs| + 1 && more[..|outputs|] == outputs && x.key.Some?
               && (more[|outputs|].reused <==> x.key.value in known + KeysOf(natives))
             else more == outputs
    ensures Flagged(more, known, natives + [x])
  {
    var all := natives + [x];
    SlotsWhereAppend(natives, x, true);
    forall k | 0 <= k < |more|
      ensures FlagAt(more, known, all, k)
    {
      var slot := SlotsWhere(all, true)[k];
      if k < |outputs| {
        assert FlagAt(outputs, known, natives, k);
        assert more[k] == more[..|outputs|][k];
        assert all[..slot] == natives[..slot] && all[slot] == natives[slot];
      } else {
        assert all[..slot] == natives;
      }
    }
  }

  lemma {:induction false} TrackedOutputs(d: Draft, firstUid: nat, height: nat, tx: Tx, n: nat, known: set<Key>,
                                          natives: seq<Native>)
    requires n <= |tx.outputs| && AddOutputs(d, firstUid, height, tx, n).Ok? && Tracked(d, known, natives)
    ensures Tracked(AddOutputs(d, firstUid, height, tx, n).value, known, natives + TxNatives(tx, n))
  {
    if n == 0 {
      assert natives + [] == natives;
    } else {
      TrackedOutputs(d, firstUid, height, tx, n - 1, known, natives);
      var front, output := AddOutputs(d, firstUid, height, tx, n - 1).value, tx.outputs[n - 1];
      var own := natives + TxNatives(tx, n - 1);
      if output.isP2tr {
        var x := Native(OutPoint(tx.txid, output.vout), output.key, !output.isNums && tx.tweak.Some?);
        KeysAppend(own, x);
        assert known + KeysOf(own) + {output.key.value} == known + (KeysOf(own) + {output.key.value});
        FlaggedAppend(front.parts.outputs, AddOutputs(d, firstUid, height, tx, n).value.parts.outputs, known, own, x);
        assert natives + TxNatives(tx, n) == own + [x];
      } else {
        assert TxNatives(tx, n) == TxNatives(tx, n - 1);
      }
    }
  }

  lemma {:induction false} TrackedTxs(m: Memory, firstUid: nat, b: Block, n: nat, known: set<Key>)
    requires m.seen == Some(known) && n <= |b.txs| && ApplyTxs(ScanStart(m, b), firstUid, b, n).Ok?
    ensures Tracked(ApplyTxs(ScanStart(m, b), firstUid, b, n).value.draft, known, Natives(b.txs, n))
  {
    if n == 0 {
      assert known + KeysOf([]) == known;
    } else {
      TrackedTxs(m, firstUid, b, n - 1, known);
      var front := ApplyTxs(ScanStart(m, b), firstUid, b, n - 1).value.draft;
      var tx := b.txs[n - 1];
      var reset := front.(parts := front.parts.(inTx := 0));
      SpendInputsKeep(reset, b.height, tx.inputs, |tx.inputs|);
      TrackedOutputs(SpendInputs(reset, b.height, tx.inputs, |tx.inputs|).value, firstUid, b.height, tx,
                     |tx.outputs|, known, Natives(b.txs, n - 1));
    }
  }

  /** A block adds the keys of all its native outputs, and flags the stored ones whose key came before. */
  lemma {:induction false} BlockFlagsReuse(hash: Hasher, m: Memory, b: Block, known: set<Key>)
    requires m.seen == Some(known) && ApplyBlock(hash, m, b).Ok?
    ensures var (next, a) := ApplyBlock(hash, m, b).value;
            next.seen == Some(known + KeysOf(BlockNatives(b))) && Flagged(a.stored.outputs, known, BlockNatives(b))
  {
    TrackedTxs(m, FirstUid(m.lastUid), b, |b.txs|, known);
  }

  // ---- A chain ---------------------------------------------------------------------------------------------

  /** The state after the first `n` blocks, from nothing and with reuse tracking. */
  ghost function TrackedRun(apply: Apply, chain: seq<Block>, n: nat): Result<Memory, ApplyError>
    requires n <= |chain|
  {
    if n == 0 then Ok(Memory(0, map[], Some({})))
    else
      match TrackedRun(apply, chain, n - 1)
      case Err(e) => Err(e)
      case Ok(m) =>
        match apply(m, chain[n - 1])
        case Err(e) => Err(e)
        case Ok(r) => Ok(r.0)
  }

  ghost predicate RunsTracked(apply: Apply, chain: seq<Block>, n: nat) {
    n <= |chain| && TrackedRun(apply, chain, n).Ok?
  }

  /** What the tracking indexer produces for the `i`-th block. */
  ghost function TrackedStep(apply: Apply, chain: seq<Block>, i: nat): Applied
    requires RunsTracked(apply, chain, i + 1)
  {
    apply(TrackedRun(apply, chain, i).value, chain[i]).value.1
  }

  lemma {:induction false} SeenKeys(apply: Apply, hash: Hasher, chain: seq<Block>, n: nat)
    requires Implements(apply, hash) && RunsTracked(apply, chain, n)
    ensures TrackedRun(apply, chain, n).value.seen == Some(KeysOf(ChainNatives(chain, n)))
  {
    if n == 0 {
      assert KeysOf([]) == {};
    } else {
      SeenKeys(apply, hash, chain, n - 1);
      var m := TrackedRun(apply, chain, n - 1).value;
      assert AppliesAt(apply, hash, m, chain[n - 1]);
      BlockFlagsReuse(hash, m, chain[n - 1], KeysOf(ChainNatives(chain, n - 1)));
      KeysConcat(ChainNatives(chain, n - 1), BlockNatives(chain[n - 1]));
    }
  }

  /** The reuse filter omits the outputs with the flag, besides those cut-through omits. */
  lemma {:induction false} ReuseFilterOmits(height: nat, o: StoredOutput, f: Filter)
    requires f.filterReuse
    ensures OmitOutput(height, o, f) <==> o.reused || OmitOutput(height, o, f.(filterReuse := false))
  {
  }

  /**
   * What the reuse filter does: an output stored by the tracking indexer is omitted exactly when some
   * earlier native output of the chain, stored or not, has the same key, or cut-through omits it.
   */
  lemma {:induction false} ReusedAreOmitted(apply: Apply, hash: Hasher, chain: seq<Block>, i: nat, k: nat, height: nat,
                                            f: Filter)
    requires Implements(apply, hash) && RunsTracked(apply, chain, i + 1) && f.filterReuse
    requires k < |TrackedStep(apply, chain, i).stored.outputs|
    ensures k < |SlotsWhere(BlockNatives(chain[i]), true)|
    ensures var o := TrackedStep(apply, chain, i).stored.outputs[k];
            var slot := SlotsWhere(BlockNatives(chain[i]), true)[k];
            OmitOutput(height, o, f) <==>
              || o.key in KeysOf(ChainNatives(chain, i) + BlockNatives(chain[i])[..slot])
              || OmitOutput(height, o, f.(filterReuse := false))
  {
    var m, b := TrackedRun(apply, chain, i).value, chain[i];
    SeenKeys(apply, hash, chain, i);
    assert AppliesAt(apply, hash, m, b);
    BlockFlagsReuse(hash, m, b, KeysOf(ChainNatives(chain, i)));
    BlockNumbersNatives(hash, m, b);
    var outputs, slot := TrackedStep(apply, chain, i).stored.outputs, SlotsWhere(BlockNatives(b), true)[k];
    assert FlagAt(outputs, KeysOf(ChainNatives(chain, i)), BlockNatives(b), k);
    KeysConcat(ChainNatives(chain, i), BlockNatives(b)[..slot]);
    ReuseFilterOmits(height, outputs[k], f);
  }
}
