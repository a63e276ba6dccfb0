/** Which outputs the scanner's identifiers name, and which of them a block records as spent. */
module ScannedUids {
  import opened Wrappers
  import opened Words
  import opened Seqs
  import opened Chain
  import SpentIds
  import opened Scanner

  // ---- The outputs of a chain in order ----------------------------------------------------------------

  datatype Made = Made(outpoint: OutPoint, scriptType: ScriptType)

  ghost function TxMade(tx: ScanTx, n: nat): (made: seq<Made>)
    requires n <= |tx.outputs|
    ensures |made| == n
  {
    seq(n, v requires 0 <= v < n => Made(OutPoint(tx.txid, v), tx.outputs[v]))
  }

  /** The outputs of the first `n` transactions. */
  ghost function TxsMade(txs: seq<ScanTx>, n: nat): seq<Made>
    requires n <= |txs|
  {
    if n == 0 then [] else TxsMade(txs, n - 1) + TxMade(txs[n - 1], |txs[n - 1].outputs|)
  }

  /** The outputs of the first `n` blocks. */
  ghost function ChainMade(blocks: seq<seq<ScanTx>>, n: nat): seq<Made>
    requires n <= |blocks|
  {
    if n == 0 then [] else ChainMade(blocks, n - 1) + TxsMade(blocks[n - 1], |blocks[n - 1]|)
  }

  ghost function TypeCount(made: seq<Made>, t: ScriptType): nat {
    if made == [] then 0
    else TypeCount(made[..|made| - 1], t) + (if made[|made| - 1].scriptType == t then 1 else 0)
  }

  lemma {:induction false} TypeCountAppend(made: seq<Made>, m: Made, t: ScriptType)
    ensures TypeCount(made + [m], t) == TypeCount(made, t) + (if m.scriptType == t then 1 else 0)
  {
    assert (made + [m])[..|made|] == made;
  }

  // ---- What an identifier names ------------------------------------------------------------------------

  /** The live entry of `o` carries the number and the type of the output that created it. */
  ghost predicate EntryNames(s: State, made: seq<Made>, o: OutPoint)
    requires o in s.utxo
  {
    1 <= s.utxo[o].id <= |made| && made[s.utxo[o].id - 1] == Made(o, s.utxo[o].scriptType)
  }

  /** The `x`-th output was spent in the block; it is recorded as a P2TR spend when it is one. */
  ghost predicate UidNames(s: State, made: seq<Made>, x: nat) {
    && (x in s.p2trUids ==> x in s.spentUids)
    && (x in s.spentUids ==> 1 <= x <= |made| && (x in s.p2trUids <==> made[x - 1].scriptType == P2tr))
  }

  ghost predicate TypeCounted(s: State, made: seq<Made>, t: ScriptType) {
    s.outputsBy[Code(t)] == TypeCount(made, t)
  }

  /** Identifiers number the outputs `made` so far, and outputs are counted under their types. */
  ghost predicate Named(s: State, made: seq<Made>) {
    && |made| == s.lastId
    && (forall o | o in s.utxo :: EntryNames(s, made, o))
    && (forall x :: UidNames(s, made, x))
    && (forall t: ScriptType :: TypeCounted(s, made, t))
  }

  lemma {:induction false} SpendKeepsNames(s: State, made: seq<Made>, txStart: nat, blockStart: nat, o: OutPoint)
    requires Named(s, made)
    ensures Named(SpendOne(s, txStart, blockStart, o), made)
  {
    var r := SpendOne(s, txStart, blockStart, o);
    forall p | p in r.utxo
      ensures EntryNames(r, made, p)
    {
      assert EntryNames(s, made, p);
    }
    forall x
      ensures UidNames(r, made, x)
    {
      assert UidNames(s, made, x);
      if o in s.utxo { assert EntryNames(s, made, o); }
    }
    forall t: ScriptType
      ensures TypeCounted(r, made, t)
    {
      assert TypeCounted(s, made, t);
    }
  }

  lemma {:induction false} CreateKeepsNames(s: State, made: seq<Made>, o: OutPoint, t: ScriptType)
    requires Named(s, made) && s.lastId < MAX_ID
    ensures Named(CreateOne(s, o, t), made + [Made(o, t)])
  {
    var r, more := CreateOne(s, o, t), made + [Made(o, t)];
    StoredEntry(s.lastId + 1, t);
    forall p | p in r.utxo
      ensures EntryNames(r, more, p)
    {
      if p != o { assert EntryNames(s, made, p); }
    }
    forall x
      ensures UidNames(r, more, x)
    {
      assert UidNames(s, made, x);
    }
    forall u: ScriptType
      ensures TypeCounted(r, more, u)
    {
      assert TypeCounted(s, made, u) && TypeOfCode(Code(u)) == u && TypeOfCode(Code(t)) == t;
      TypeCountAppend(made, Made(o, t), u);
    }
  }

  // ---- What a block spends --------------------------------------------------------------------------------

  /** Identifier `x` is live. */
  ghost predicate IsLive(s: State, x: nat) {
    exists o :: o in s.utxo && s.utxo[o].id == x
  }

  /** The identifiers above `low`. */
  ghost function Above(uids: seq<nat>, low: nat): nat {
    if uids == [] then 0 else Above(uids[..|uids| - 1], low) + (if uids[|uids| - 1] > low then 1 else 0)
  }

  lemma {:induction false} AboveAppend(uids: seq<nat>, x: nat, low: nat)
    ensures Above(uids + [x], low) == Above(uids, low) + (if x > low then 1 else 0)
  {
    assert (uids + [x])[..|uids|] == uids;
  }

  /** `x` was live before, or has been created since. */
  ghost predicate WasThere(s0: State, s: State, x: nat) {
    IsLive(s0, x) || s0.lastId < x <= s.lastId
  }

  /** `x` is live only if it was there, and spent exactly if it was there and is not live. */
  ghost predicate Accounts(s0: State, s: State, x: nat) {
    && (IsLive(s, x) ==> WasThere(s0, s, x))
    && (x in s.spentUids <==> WasThere(s0, s, x) && !IsLive(s, x))
  }

  /** What was recorded since `s0`, the state at the start of the block. */
  ghost predicate Since(s0: State, s: State) {
    && s0.lastId <= s.lastId
    && s.spends == s0.spends + |s.spentUids|
    && s.sameBlock == s0.sameBlock + Above(s.spentUids, s0.lastId)
    && forall x :: Accounts(s0, s, x)
  }

  lemma {:induction false} LiveAfterSpend(s: State, r: State, made: seq<Made>, o: OutPoint, x: nat)
    requires Named(s, made) && o in s.utxo && r.utxo == s.utxo - {o}
    ensures IsLive(r, x) <==> IsLive(s, x) && x != s.utxo[o].id
  {
    assert EntryNames(s, made, o);
    if IsLive(r, x) {
      var p :| p in r.utxo && r.utxo[p].id == x;
      assert p in s.utxo && EntryNames(s, made, p);
    }
    if IsLive(s, x) && x != s.utxo[o].id {
      var p :| p in s.utxo && s.utxo[p].id == x;
      assert p in r.utxo;
    }
  }

  lemma {:induction false} LiveAfterCreate(s: State, r: State, o: OutPoint, entry: Entry, x: nat)
    requires o !in s.utxo && r.utxo == s.utxo[o := entry]
    ensures IsLive(r, x) <==> IsLive(s, x) || x == entry.id
  {
    if IsLive(s, x) {
      var p :| p in s.utxo && s.utxo[p].id == x;
      assert p in r.utxo && r.utxo[p].id == x;
    }
    assert o in r.utxo && r.utxo[o].id == entry.id;
  }

  /** Identifiers above the last one are not live. */
  lemma {:induction false} NotYetLive(s: State, made: seq<Made>, x: nat)
    requires Named(s, made) && IsLive(s, x)
    ensures 1 <= x <= s.lastId
  {
    var o :| o in s.utxo && s.utxo[o].id == x;
    assert EntryNames(s, made, o);
  }

  lemma {:induction false} SpendRecorded(s0: State, s: State, made: seq<Made>, txStart: nat, o: OutPoint)
    requires Since(s0, s) && Named(s, made) && s.lastId <= txStart
    ensures Since(s0, SpendOne(s, txStart, s0.lastId, o))
  {
    var r := SpendOne(s, txStart, s0.lastId, o);
    if o in s.utxo {
      var id := s.utxo[o].id;
      assert EntryNames(s, made, o);
      AboveAppend(s.spentUids, id, s0.lastId);
      forall x
        ensures Accounts(s0, r, x)
      {
        assert Accounts(s0, s, x);
        LiveAfterSpend(s, r, made, o, x);
      }
    } else {
      forall x
        ensures Accounts(s0, r, x)
      {
        assert Accounts(s0, s, x);
      }
    }
  }

  lemma {:induction false} CreateRecorded(s0: State, s: State, made: seq<Made>, o: OutPoint, t: ScriptType)
    requires Since(s0, s) && Named(s, made) && o !in s.utxo && s.lastId < MAX_ID
    ensures Since(s0, CreateOne(s, o, t))
  {
    var r := CreateOne(s, o, t);
    StoredEntry(s.lastId + 1, t);
    forall x
      ensures Accounts(s0, r, x)
    {
      assert Accounts(s0, s, x) && UidNames(s, made, x);
      LiveAfterCreate(s, r, o, Entry(s.lastId + 1, t), x);
      if IsLive(s, x) { NotYetLive(s, made, x); }
    }
  }

  // ---- Over transactions and blocks --------------------------------------------------------------------------

  ghost predicate Tracks(s0: State, s: State, made: seq<Made>) {
    Named(s, made) && Since(s0, s)
  }

  lemma {:induction false} SpendAllTracks(s0: State, s: State, made: seq<Made>, txStart: nat, inputs: seq<OutPoint>,
                                          n: nat)
    requires Tracks(s0, s, made) && s.lastId <= txStart && n <= |inputs|
    ensures Tracks(s0, SpendAll(s, txStart, s0.lastId, inputs, n), made)
  {
    if n > 0 {
      SpendAllTracks(s0, s, made, txStart, inputs, n - 1);
      SpendAllEffect(s, txStart, s0.lastId, inputs, n - 1);
      var front := SpendAll(s, txStart, s0.lastId, inputs, n - 1);
      SpendKeepsNames(front, made, txStart, s0.lastId, inputs[n - 1]);
      SpendRecorded(s0, front, made, txStart, inputs[n - 1]);
    }
  }

  lemma {:induction false} CreateTracks(s0: State, s: State, made: seq<Made>, o: OutPoint, t: ScriptType)
    requires Tracks(s0, s, made) && o !in s.utxo && s.lastId < MAX_ID
    ensures Tracks(s0, CreateOne(s, o, t), made + [Made(o, t)])
  {
    CreateKeepsNames(s, made, o, t);
    CreateRecorded(s0, s, made, o, t);
  }

  lemma {:induction false} CreateAllTracks(s0: State, s: State, made: seq<Made>, tx: ScanTx, n: nat)
    requires Tracks(s0, s, made) && n <= |tx.outputs| && s.lastId + n <= MAX_ID
        && Creates(tx, |tx.outputs|) !! s.utxo.Keys
    ensures Tracks(s0, CreateAll(s, tx, n), made + TxMade(tx, n))
  {
    if n == 0 {
      assert made + TxMade(tx, 0) == made;
    } else {
      CreateAllTracks(s0, s, made, tx, n - 1);
      NextIsNew(s, tx, n - 1);
      var o, t := OutPoint(tx.txid, n - 1), tx.outputs[n - 1];
      CreateTracks(s0, CreateAll(s, tx, n - 1), made + TxMade(tx, n - 1), o, t);
      assert TxMade(tx, n) == TxMade(tx, n - 1) + [Made(o, t)];
      Regroup(made, TxMade(tx, n - 1), [Made(o, t)]);
    }
  }

  lemma {:induction false} TxTracks(s0: State, s: State, made: seq<Made>, tx: ScanTx)
    requires Tracks(s0, s, made) && s.lastId + |tx.outputs| <= MAX_ID && Creates(tx, |tx.outputs|) !! s.utxo.Keys
    ensures Tracks(s0, AfterTx(s, tx, s0.lastId), made + TxMade(tx, |tx.outputs|))
  {
    if tx.isCoinbase {
      CreateAllTracks(s0, s, made, tx, |tx.outputs|);
    } else {
      SpendAllEffect(s, s.lastId, s0.lastId, tx.inputs, |tx.inputs|);
      SpendAllTracks(s0, s, made, s.lastId, tx.inputs, |tx.inputs|);
      CreateAllTracks(s0, SpendAll(s, s.lastId, s0.lastId, tx.inputs, |tx.inputs|), made, tx, |tx.outputs|);
    }
  }

  lemma {:induction false} TxsTrack(s0: State, made: seq<Made>, txs: seq<ScanTx>, n: nat, before: set<OutPoint>)
    requires Tracks(s0, s0, made) && n <= |txs| && s0.utxo.Keys <= before && FreshTxs(txs, before)
    requires s0.lastId + OutputTotal(txs, |txs|) <= MAX_ID
    ensures Tracks(s0, AfterTxs(s0, txs, s0.lastId, n), made + TxsMade(txs, n))
  {
    if n == 0 {
      assert made + TxsMade(txs, 0) == made;
    } else {
      TxsTrack(s0, made, txs, n - 1, before);
      AfterTxsEffect(s0, txs, s0.lastId, n - 1);
      assert FreshTx(txs, n - 1, before);
      TotalGrows(txs, n, |txs|);
      var front, tx := AfterTxs(s0, txs, s0.lastId, n - 1), txs[n - 1];
      NewToFront(front.utxo.Keys, before, CreatedBy(txs, n - 1), Creates(tx, |tx.outputs|));
      TxTracks(s0, front, made + TxsMade(txs, n - 1), tx);
      Regroup(made, TxsMade(txs, n - 1), TxMade(tx, |tx.outputs|));
    }
  }

  lemma {:induction false} NewToFront(live: set<OutPoint>, before: set<OutPoint>, created: set<OutPoint>,
                                      own: set<OutPoint>)
    requires live <= before + created && own !! before + created
    ensures own !! live
  {
  }

  /** At the start of a block nothing has been recorded. */
  lemma {:induction false} ClearedTracks(s: State, made: seq<Made>)
    requires Named(s, made)
    ensures var s0 := s.(spentUids := [], p2trUids := []); Tracks(s0, s0, made)
  {
    var s0 := s.(spentUids := [], p2trUids := []);
    forall o | o in s0.utxo
      ensures EntryNames(s0, made, o)
    {
      assert EntryNames(s, made, o);
    }
    forall t: ScriptType
      ensures TypeCounted(s0, made, t)
    {
      assert TypeCounted(s, made, t);
    }
  }

  /** The next block records what `Since` says, and its outputs get the next identifiers. */
  lemma {:induction false} BlockTracks(blocks: seq<seq<ScanTx>>, n: nat)
    requires Scannable(blocks) && n < |blocks| && Named(AfterBlocks(blocks, n), ChainMade(blocks, n))
    ensures var s0 := AfterBlocks(blocks, n).(spentUids := [], p2trUids := []);
            Tracks(s0, AfterBlocks(blocks, n + 1), ChainMade(blocks, n + 1))
  {
    var s := AfterBlocks(blocks, n);
    ClearedTracks(s, ChainMade(blocks, n));
    ScanCounts(blocks, n);
    ChainTotalGrows(blocks, n + 1, |blocks|);
    assert FreshBlock(blocks, n);
    var s0 := s.(spentUids := [], p2trUids := []);
    TxsTrack(s0, ChainMade(blocks, n), blocks[n], |blocks[n]|, ChainCreated(blocks, n));
  }

  /**
   * After any blocks of a scannable chain every live entry carries the number and the type of the output
   * that created it, in chain order, and every output is counted under its type.
   */
  lemma {:induction false} EntriesNameOutputs(blocks: seq<seq<ScanTx>>, n: nat)
    requires Scannable(blocks) && n <= |blocks|
    ensures Named(AfterBlocks(blocks, n), ChainMade(blocks, n))
  {
    if n > 0 {
      EntriesNameOutputs(blocks, n - 1);
      BlockTracks(blocks, n - 1);
    } else {
      EmptyIsNamed();
    }
  }

  lemma {:induction false} EmptyIsNamed()
    ensures Named(Empty(), [])
  {
    forall t: ScriptType
      ensures TypeCounted(Empty(), [], t)
    {
    }
  }

  /** Identifier `x` was live before the block or was created in it, and is not live after it. */
  ghost predicate SpentBetween(before: State, after: State, x: nat) {
    (IsLive(before, x) || before.lastId < x <= after.lastId) && !IsLive(after, x)
  }

  /** The recorded identifiers are distinct: as many as the block's spends, and exactly those it spent. */
  ghost predicate RecordsSpends(before: State, after: State) {
    && SpentIds.Distinct(after.spentUids)
    && |after.spentUids| == after.spends - before.spends
    && forall x: nat :: x in after.spentUids <==> SpentBetween(before, after, x)
  }

  /** The identifiers recorded as P2TR are distinct, and exactly those recorded whose outputs are P2TR. */
  ghost predicate RecordsP2tr(after: State, made: seq<Made>) {
    && SpentIds.Distinct(after.p2trUids)
    && forall x: nat :: x in after.p2trUids
         <==> x in after.spentUids && 1 <= x <= |made| && made[x - 1].scriptType == P2tr
  }

  /**
   * What a block of a scannable chain records: exactly the identifiers it spent, once each; those of
   * P2TR outputs apart; and as spends within the block those it also created.
   */
  lemma {:induction false} SpentUidsAre(blocks: seq<seq<ScanTx>>, n: nat)
    requires Scannable(blocks) && n < |blocks|
    ensures var (before, after) := (AfterBlocks(blocks, n), AfterBlocks(blocks, n + 1));
            && RecordsSpends(before, after) && RecordsP2tr(after, ChainMade(blocks, n + 1))
            && after.sameBlock == before.sameBlock + Above(after.spentUids, before.lastId)
  {
    var before, after, made := AfterBlocks(blocks, n), AfterBlocks(blocks, n + 1), ChainMade(blocks, n + 1);
    EntriesNameOutputs(blocks, n);
    BlockTracks(blocks, n);
    ScanKeepsLaws(blocks, n + 1);
    var s0 := before.(spentUids := [], p2trUids := []);
    forall x: nat
      ensures x in after.spentUids <==> SpentBetween(before, after, x)
      ensures x in after.p2trUids <==> x in after.spentUids && 1 <= x <= |made| && made[x - 1].scriptType == P2tr
    {
      assert Accounts(s0, after, x) && UidNames(after, made, x);
      assert IsLive(s0, x) <==> IsLive(before, x);
    }
  }
}
