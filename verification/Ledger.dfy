/** The reference indexer: each block of a chain applied in turn to one map. */
module Ledger {
  import opened Wrappers
  import opened Words
  import opened HashPacking
  import opened Chain
  import opened Indexer
  import opened BlockEffect
  import opened NativeOutputs
  import opened PartialMemory

  /** How one block changes the state; the program's is `ApplyBlock` for its hash. */
  type Apply = (Memory, Block) -> Result<(Memory, Applied), ApplyError>

  ghost predicate AppliesAt(apply: Apply, hash: Hasher, m: Memory, b: Block) {
    apply(m, b) == ApplyBlock(hash, m, b)
  }

  ghost predicate Implements(apply: Apply, hash: Hasher) {
    forall m, b :: AppliesAt(apply, hash, m, b)
  }

  /** What the rest of this module needs to know of one application. */
  ghost predicate Lawful(apply: Apply, m: Memory, b: Block) {
    match apply(m, b)
    case Err(_) => true
    case Ok(r) =>
      && (Ordered(b.txs) ==> ChangesLive(m, b, r.0, r.1))
      && NumbersNatives(m, b, r.0, r.1)
      && (m.seen.None? ==> r.0.seen.None?)
  }

  /** Live outpoints the block does not touch make no difference to it. */
  ghost predicate IgnoresHidden(apply: Apply, m: Memory, hidden: Refs, b: Block) {
    Untouched(hidden, m.live, BlockInputs(b), BlockOutputs(b)) ==>
      SameBlock(apply(m.(live := m.live + hidden), b), apply(m, b), hidden)
  }

  ghost predicate Laws(apply: Apply) {
    && (forall m, b :: Lawful(apply, m, b))
    && (forall m, hidden, b :: IgnoresHidden(apply, m, hidden, b))
  }

  lemma {:induction false} ProgramIsLawful(apply: Apply, hash: Hasher)
    requires Implements(apply, hash)
    ensures Laws(apply)
  {
    forall m, b
      ensures Lawful(apply, m, b)
    {
      assert AppliesAt(apply, hash, m, b);
      if apply(m, b).Ok? {
        BlockNumbersNatives(hash, m, b);
        if Ordered(b.txs) { BlockChangesLive(hash, m, b); }
        if m.seen.None? { BlockStaysUntracked(hash, m, b); }
      }
    }
    forall m, hidden, b
      ensures IgnoresHidden(apply, m, hidden, b)
    {
      assert AppliesAt(apply, hash, m, b) && AppliesAt(apply, hash, m.(live := m.live + hidden), b);
      if Untouched(hidden, m.live, BlockInputs(b), BlockOutputs(b)) { HiddenBlock(hash, m, hidden, b); }
    }
  }

  /** The state after the first `n` blocks, from nothing and without reuse tracking. */
  ghost function Run(apply: Apply, chain: seq<Block>, n: nat): Result<Memory, ApplyError>
    requires n <= |chain|
  {
    if n == 0 then Ok(Memory(0, map[], None))
    else
      match Run(apply, chain, n - 1)
      case Err(e) => Err(e)
      case Ok(m) =>
        match apply(m, chain[n - 1])
        case Err(e) => Err(e)
        case Ok(r) => Ok(r.0)
  }

  ghost predicate Runs(apply: Apply, chain: seq<Block>, n: nat) {
    n <= |chain| && Run(apply, chain, n).Ok?
  }

  ghost function Live(apply: Apply, chain: seq<Block>, n: nat): Refs
    requires Runs(apply, chain, n)
  {
    Run(apply, chain, n).value.live
  }

  /** What the reference indexer produces for the `i`-th block. */
  ghost function Step(apply: Apply, chain: seq<Block>, i: nat): Applied
    requires Runs(apply, chain, i + 1)
  {
    apply(Run(apply, chain, i).value, chain[i]).value.1
  }

  lemma {:induction false} RunsBefore(apply: Apply, chain: seq<Block>, m: nat, n: nat)
    requires m <= n && Runs(apply, chain, n)
    ensures Runs(apply, chain, m)
  {
    if m < n { RunsBefore(apply, chain, m, n - 1); }
  }

  lemma {:induction false} RunUntracked(apply: Apply, chain: seq<Block>, n: nat)
    requires Laws(apply) && Runs(apply, chain, n)
    ensures Run(apply, chain, n).value.seen.None?
  {
    if n > 0 {
      RunUntracked(apply, chain, n - 1);
      assert Lawful(apply, Run(apply, chain, n - 1).value, chain[n - 1]);
    }
  }

  lemma {:induction false} StepNumbersNatives(apply: Apply, chain: seq<Block>, i: nat)
    requires Laws(apply) && Runs(apply, chain, i + 1)
    ensures Runs(apply, chain, i)
    ensures NumbersNatives(Run(apply, chain, i).value, chain[i], Run(apply, chain, i + 1).value, Step(apply, chain, i))
  {
    assert Lawful(apply, Run(apply, chain, i).value, chain[i]);
  }

  /** Every output indexed by the first `n` blocks. */
  ghost function Index(apply: Apply, chain: seq<Block>, n: nat): Refs
    requires Runs(apply, chain, n)
  {
    if n == 0 then map[] else Index(apply, chain, n - 1) + CreatedMap(Step(apply, chain, n - 1).created)
  }

  // ---- Live outputs ------------------------------------------------------------------

  lemma {:induction false} ValidBlockIsOrdered(chain: seq<Block>, start: nat, i: nat)
    requires ValidChain(chain, start) && i < |chain|
    ensures Ordered(chain[i].txs)
  {
    assert ValidAt(chain, start, i);
    forall t | 0 <= t < |chain[i].txs|
      ensures TxOutputs(chain[i].txs[t]) !! InputsUpTo(chain[i].txs, t + 1)
    {
      assert ValidTx(chain[i].txs, t, ChainInputs(chain, i), ChainOutputs(chain, i));
    }
  }

  lemma {:induction false} StepChangesLive(apply: Apply, chain: seq<Block>, start: nat, i: nat)
    requires Laws(apply) && ValidChain(chain, start) && Runs(apply, chain, i + 1)
    ensures Runs(apply, chain, i)
    ensures ChangesLive(Run(apply, chain, i).value, chain[i], Run(apply, chain, i + 1).value, Step(apply, chain, i))
  {
    ValidBlockIsOrdered(chain, start, i);
    assert Lawful(apply, Run(apply, chain, i).value, chain[i]);
  }

  lemma {:induction false} StepLive(apply: Apply, chain: seq<Block>, start: nat, i: nat)
    returns (created: Refs, spent: set<OutPoint>)
    requires Laws(apply) && ValidChain(chain, start) && Runs(apply, chain, i + 1)
    ensures Runs(apply, chain, i)
    ensures created == CreatedMap(Step(apply, chain, i).created) && created.Keys <= BlockOutputs(chain[i])
    ensures spent == SpentSet(Step(apply, chain, i).spent) && spent <= BlockInputs(chain[i])
    ensures Live(apply, chain, i + 1) == Live(apply, chain, i) + created - spent
    ensures Live(apply, chain, i + 1).Keys !! BlockInputs(chain[i])
  {
    StepChangesLive(apply, chain, start, i);
    created, spent := CreatedMap(Step(apply, chain, i).created), SpentSet(Step(apply, chain, i).spent);
  }

  lemma {:induction false} FreshKeys(chain: seq<Block>, start: nat, i: nat, keys: set<OutPoint>)
    requires ValidChain(chain, start) && i < |chain| && keys <= BlockOutputs(chain[i])
    ensures keys !! ChainInputs(chain, i) && keys !! ChainOutputs(chain, i)
  {
    forall o | o in keys
      ensures o !in ChainInputs(chain, i) && o !in ChainOutputs(chain, i)
    {
      CreatedFresh(chain, start, i, o);
    }
  }

  lemma {:induction false} EffectOnUnspent(index: Refs, live: Refs, past: set<OutPoint>, ins: set<OutPoint>,
                                           created: Refs, spent: set<OutPoint>)
    requires live == index - past && spent <= ins && created.Keys !! past
    requires (live + created - spent).Keys !! ins
    ensures live + created - spent == index + created - (past + ins)
  {
  }

  /** The live outputs are exactly those indexed and not yet spent. */
  lemma {:induction false} LiveIsIndexedUnspent(apply: Apply, chain: seq<Block>, start: nat, n: nat)
    requires Laws(apply) && ValidChain(chain, start) && Runs(apply, chain, n)
    ensures Live(apply, chain, n) == Index(apply, chain, n) - ChainInputs(chain, n)
    ensures Index(apply, chain, n).Keys <= ChainOutputs(chain, n)
  {
    if n > 0 {
      var created, spent := StepLive(apply, chain, start, n - 1);
      LiveIsIndexedUnspent(apply, chain, start, n - 1);
      FreshKeys(chain, start, n - 1, created.Keys);
      EffectOnUnspent(Index(apply, chain, n - 1), Live(apply, chain, n - 1), ChainInputs(chain, n - 1),
                      BlockInputs(chain[n - 1]), created, spent);
    }
  }

  lemma {:induction false} CoinbaseNeverCreated(chain: seq<Block>, start: nat, n: nat)
    requires ValidChain(chain, start) && n <= |chain|
    ensures COINBASE !in ChainOutputs(chain, n)
  {
    if n > 0 {
      CoinbaseNeverCreated(chain, start, n - 1);
      if COINBASE in BlockOutputs(chain[n - 1]) { CreatedFresh(chain, start, n - 1, COINBASE); }
    }
  }

  /** An output indexed by the first `n` blocks keeps its entry in every later index. */
  lemma {:induction false} IndexGrows(apply: Apply, chain: seq<Block>, start: nat, m: nat, n: nat, o: OutPoint)
    requires Laws(apply) && ValidChain(chain, start) && Runs(apply, chain, m) && Runs(apply, chain, n) && m <= n
    requires o in Index(apply, chain, m)
    ensures o in Index(apply, chain, n) && Index(apply, chain, n)[o] == Index(apply, chain, m)[o]
  {
    if m < n {
      var created, _ := StepLive(apply, chain, start, n - 1);
      IndexGrows(apply, chain, start, m, n - 1, o);
      LiveIsIndexedUnspent(apply, chain, start, n - 1);
      FreshKeys(chain, start, n - 1, created.Keys);
    }
  }

  // ---- Spends --------------------------------------------------------------------------

  /** A block's spent records are exactly its inputs that name indexed outputs, with their entries. */
  lemma {:induction false} SpentRecords(apply: Apply, chain: seq<Block>, start: nat, i: nat)
    requires Laws(apply) && ValidChain(chain, start) && Runs(apply, chain, i + 1)
    ensures var a := Step(apply, chain, i);
            && SpentSet(a.spent) == BlockInputs(chain[i]) * Index(apply, chain, i + 1).Keys
            && SpentMatches(a.spent, a.stored.spends, Index(apply, chain, i + 1), start + i)
  {
    var a := Step(apply, chain, i);
    assert ValidAt(chain, start, i);
    StepChangesLive(apply, chain, start, i);
    LiveIsIndexedUnspent(apply, chain, start, i);
    forall o | o in BlockInputs(chain[i]) && o in Index(apply, chain, i + 1)
      ensures o in SpentSet(a.spent)
    {
      LiveIsIndexedUnspent(apply, chain, start, i + 1);
      CoinbaseNeverCreated(chain, start, i + 1);
      if o in ChainInputs(chain, i) { SpentOnce(chain, start, i, o); }
      assert o in Live(apply, chain, i) + CreatedMap(a.created);
    }
    forall k | 0 <= k < |a.spent|
      ensures a.spent[k].outpoint in SpentSet(a.spent)
    {
      SpentIn(a.spent, k);
    }
    assert SpentSet(a.spent) <= Index(apply, chain, i + 1).Keys by {
      forall o | o in SpentSet(a.spent)
        ensures o in Index(apply, chain, i + 1)
      {
        var k := SpentRecordOf(a.spent, o);
        assert a.spent[k].outpoint in Live(apply, chain, i) + CreatedMap(a.created);
      }
    }
  }

  lemma {:induction false} SpentRecordOf(spent: seq<Spent>, o: OutPoint) returns (k: nat)
    requires o in SpentSet(spent)
    ensures k < |spent| && spent[k].outpoint == o
  {
    k := |spent| - 1;
    if spent[k].outpoint != o { k := SpentRecordOf(spent[..k], o); }
  }

  // ---- Where an entry comes from -------------------------------------------------------

  lemma {:induction false} CreatedLookup(created: seq<Created>, k: nat)
    requires k < |created| && forall p, q | 0 <= p < q < |created| :: created[p].outpoint != created[q].outpoint
    ensures created[k].outpoint in CreatedMap(created) && CreatedMap(created)[created[k].outpoint] == created[k].ref
  {
    if k < |created| - 1 { CreatedLookup(created[..|created| - 1], k); }
  }

  ghost predicate DistinctNatives(natives: seq<Native>) {
    forall p, q | 0 <= p < q < |natives| :: natives[p].outpoint != natives[q].outpoint
  }

  lemma {:induction false} TxNativesDistinct(tx: Tx, n: nat)
    requires DistinctOutputs(tx) && n <= |tx.outputs|
    ensures DistinctNatives(TxNatives(tx, n))
    ensures forall p | 0 <= p < |TxNatives(tx, n)| ::
      exists v :: 0 <= v < n && TxNatives(tx, n)[p].outpoint == OutPoint(tx.txid, tx.outputs[v].vout)
  {
    if n > 0 {
      TxNativesDistinct(tx, n - 1);
      assert forall v | 0 <= v < n - 1 :: tx.outputs[v].vout != tx.outputs[n - 1].vout;
      if tx.outputs[n - 1].isP2tr {
        var p := |TxNatives(tx, n - 1)|;
        assert TxNatives(tx, n)[p].outpoint == OutPoint(tx.txid, tx.outputs[n - 1].vout);
      }
    }
  }

  ghost predicate NativesWithin(natives: seq<Native>, outs: set<OutPoint>) {
    forall p | 0 <= p < |natives| :: natives[p].outpoint in outs
  }

  lemma {:induction false} DistinctConcat(a: seq<Native>, b: seq<Native>, outs: set<OutPoint>, more: set<OutPoint>)
    requires DistinctNatives(a) && DistinctNatives(b) && NativesWithin(a, outs) && NativesWithin(b, more)
        && outs !! more
    ensures DistinctNatives(a + b) && NativesWithin(a + b, outs + more)
  {
  }

  lemma {:induction false} NativesDistinct(txs: seq<Tx>, n: nat, spent: set<OutPoint>, created: set<OutPoint>)
    requires n <= |txs| && forall t | 0 <= t < |txs| :: ValidTx(txs, t, spent, created)
    ensures DistinctNatives(Natives(txs, n)) && NativesWithin(Natives(txs, n), OutputsUpTo(txs, n))
  {
    if n > 0 {
      NativesDistinct(txs, n - 1, spent, created);
      var tx := txs[n - 1];
      assert ValidTx(txs, n - 1, spent, created);
      TxNativesDistinct(tx, |tx.outputs|);
      DistinctConcat(Natives(txs, n - 1), TxNatives(tx, |tx.outputs|), OutputsUpTo(txs, n - 1), TxOutputs(tx));
    }
  }

  /** The `k`-th record created by the `i`-th block is the index entry of its outpoint ever after. */
  lemma {:induction false} CreatedIsIndexed(apply: Apply, chain: seq<Block>, start: nat, n: nat, i: nat, k: nat)
    requires Laws(apply) && ValidChain(chain, start) && Runs(apply, chain, n) && i < n && Runs(apply, chain, i + 1)
    requires k < |Step(apply, chain, i).created|
    ensures var c := Step(apply, chain, i).created[k];
            c.outpoint in Index(apply, chain, n) && Index(apply, chain, n)[c.outpoint] == c.ref
  {
    var a, b := Step(apply, chain, i), chain[i];
    StepNumbersNatives(apply, chain, i);
    assert ValidAt(chain, start, i);
    NativesDistinct(b.txs, |b.txs|, ChainInputs(chain, i), ChainOutputs(chain, i));
    CreatedDistinct(a.created, BlockNatives(b));
    CreatedLookup(a.created, k);
    IndexGrows(apply, chain, start, i + 1, n, a.created[k].outpoint);
  }

  lemma {:induction false} CreatedDistinct(created: seq<Created>, natives: seq<Native>)
    requires DistinctNatives(natives) && |created| == |SlotsWhere(natives, true)|
    requires forall k | 0 <= k < |created| :: created[k].outpoint == natives[SlotsWhere(natives, true)[k]].outpoint
    ensures forall p, q | 0 <= p < q < |created| :: created[p].outpoint != created[q].outpoint
  {
    var dense := SlotsWhere(natives, true);
    forall p, q | 0 <= p < q < |created|
      ensures created[p].outpoint != created[q].outpoint
    {
      SlotsAscendApart(natives, true, p, q);
    }
  }

  /** Every index entry was created by one of the blocks. */
  lemma {:induction false} IndexOrigin(apply: Apply, chain: seq<Block>, n: nat, o: OutPoint) returns (i: nat, k: nat)
    requires Runs(apply, chain, n) && o in Index(apply, chain, n)
    ensures i < n && Runs(apply, chain, i + 1) && k < |Step(apply, chain, i).created|
    ensures Step(apply, chain, i).created[k] == Created(o, Index(apply, chain, n)[o])
  {
    RunsBefore(apply, chain, n - 1, n);
    i := n - 1;
    if o in CreatedMap(Step(apply, chain, n - 1).created) {
      k := CreatedRecordOf(Step(apply, chain, n - 1).created, o);
    } else {
      i, k := IndexOrigin(apply, chain, n - 1, o);
    }
  }

  // ---- Identifiers -----------------------------------------------------------------------

  /** The last UID is the number of native outputs so far; it never comes near the word limit. */
  lemma {:induction false} LastUidCountsNatives(apply: Apply, chain: seq<Block>, n: nat)
    requires Laws(apply) && Runs(apply, chain, n) && n <= U32_MAX
    ensures Run(apply, chain, n).value.lastUid == |ChainNatives(chain, n)| <= (U16_MAX + 1) * n
  {
    if n > 0 {
      LastUidCountsNatives(apply, chain, n - 1);
      StepNumbersNatives(apply, chain, n - 1);
    }
  }

  lemma {:induction false} ChainNativesGrow(chain: seq<Block>, m: nat, n: nat)
    requires m <= n <= |chain|
    ensures ChainNatives(chain, m) <= ChainNatives(chain, n)
  {
    if m < n { ChainNativesGrow(chain, m, n - 1); }
  }

  /** Far below the word limit, a block's UIDs follow the last one without a gap. */
  lemma {:induction false} UidInBlock(m: Memory, b: Block, next: Memory, a: Applied, k: nat)
    requires NumbersNatives(m, b, next, a) && m.lastUid < U64_MAX && k < |a.created|
    ensures var slot := a.created[k].ref.uid - 1 - m.lastUid;
            && 0 <= slot < |BlockNatives(b)|
            && BlockNatives(b)[slot].outpoint == a.created[k].outpoint && BlockNatives(b)[slot].indexed
  {
    var slot := SlotsWhere(BlockNatives(b), true)[k];
    assert a.created[k].ref.uid == a.stored.firstUid + slot;
  }

  lemma {:induction false} NativeInChain(chain: seq<Block>, i: nat, n: nat, slot: nat)
    requires i < n <= |chain| && slot < |BlockNatives(chain[i])|
    ensures |ChainNatives(chain, i)| + slot < |ChainNatives(chain, n)|
    ensures ChainNatives(chain, n)[|ChainNatives(chain, i)| + slot] == BlockNatives(chain[i])[slot]
  {
    ChainNativesGrow(chain, i + 1, n);
    assert ChainNatives(chain, i + 1)[|ChainNatives(chain, i)| + slot] == BlockNatives(chain[i])[slot];
  }

  /**
   * The UID of every indexed output is one more than the number of native outputs before it in
   * chain order.
   */
  lemma {:induction false} UidCountsNativesBefore(apply: Apply, chain: seq<Block>, n: nat, i: nat, k: nat)
    requires Laws(apply) && n <= U32_MAX && Runs(apply, chain, n) && i < n && Runs(apply, chain, i + 1)
        && k < |Step(apply, chain, i).created|
    ensures var c := Step(apply, chain, i).created[k];
            var natives := ChainNatives(chain, n);
            && 1 <= c.ref.uid <= |natives|
            && natives[c.ref.uid - 1].outpoint == c.outpoint && natives[c.ref.uid - 1].indexed
  {
    StepNumbersNatives(apply, chain, i);
    LastUidCountsNatives(apply, chain, i);
    UidInBlock(Run(apply, chain, i).value, chain[i], Run(apply, chain, i + 1).value, Step(apply, chain, i), k);
    NativeInChain(chain, i, n, Step(apply, chain, i).created[k].ref.uid - 1 - |ChainNatives(chain, i)|);
  }

  /** Different outpoints have different UIDs. */
  lemma {:induction false} UidsDistinct(apply: Apply, chain: seq<Block>, n: nat, o: OutPoint, p: OutPoint)
    requires Laws(apply) && n <= U32_MAX && Runs(apply, chain, n)
    requires o in Index(apply, chain, n) && p in Index(apply, chain, n)
    ensures Index(apply, chain, n)[o].uid == Index(apply, chain, n)[p].uid <==> o == p
  {
    var i, k := IndexOrigin(apply, chain, n, o);
    var j, l := IndexOrigin(apply, chain, n, p);
    UidCountsNativesBefore(apply, chain, n, i, k);
    UidCountsNativesBefore(apply, chain, n, j, l);
  }
}
