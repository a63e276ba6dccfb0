/** What applying one block does, said without its steps. */
module BlockEffect {
  import opened Wrappers
  import opened HashPacking
  import opened LightBlock
  import opened Chain
  import opened Indexer

  type Refs = map<OutPoint, SpendRef>

  ghost function CreatedMap(created: seq<Created>): (m: Refs)
  {
    if created == [] then map[]
    else
      var last := created[|created| - 1];
      CreatedMap(created[..|created| - 1])[last.outpoint := last.ref]
  }

  ghost function SpentSet(spent: seq<Spent>): set<OutPoint>
  {
    if spent == [] then {} else SpentSet(spent[..|spent| - 1]) + {spent[|spent| - 1].outpoint}
  }

  /** Creations first, then deletions. */
  ghost function Effect(live: Refs, created: seq<Created>, spent: seq<Spent>): Refs {
    live + CreatedMap(created) - SpentSet(spent)
  }

  lemma {:induction false} CreatedMapAppend(created: seq<Created>, c: Created)
    ensures CreatedMap(created + [c]) == CreatedMap(created)[c.outpoint := c.ref]
  {
    assert (created + [c])[..|created|] == created;
  }

  lemma {:induction false} CreatedRecordOf(created: seq<Created>, o: OutPoint) returns (k: nat)
    requires o in CreatedMap(created)
    ensures k < |created| && created[k] == Created(o, CreatedMap(created)[o])
  {
    k := |created| - 1;
    if created[k].outpoint != o { k := CreatedRecordOf(created[..k], o); }
  }

  lemma {:induction false} SpentSetAppend(spent: seq<Spent>, s: Spent)
    ensures SpentSet(spent + [s]) == SpentSet(spent) + {s.outpoint}
  {
    assert (spent + [s])[..|spent|] == spent;
  }

  lemma {:induction false} CreateAfter(live: Refs, c: Refs, s: set<OutPoint>, o: OutPoint, ref: SpendRef)
    requires o !in s
    ensures (live + c - s)[o := ref] == live + c[o := ref] - s
  {
  }

  lemma {:induction false} SpendAfter(live: Refs, c: Refs, s: set<OutPoint>, o: OutPoint)
    ensures live + c - s - {o} == live + c - (s + {o})
  {
  }

  /** Spending inputs changes nothing but the live map and the spends, one at most per input. */
  lemma {:induction false} SpendInputsKeep(d: Draft, height: nat, inputs: seq<OutPoint>, n: nat)
    requires n <= |inputs| && SpendInputs(d, height, inputs, n).Ok?
    ensures var e := SpendInputs(d, height, inputs, n).value;
            && e.seen == d.seen && e.parts == d.parts.(spends := e.parts.spends, spent := e.parts.spent)
            && |e.parts.spends| <= |d.parts.spends| + n
  {
    if n > 0 { SpendInputsKeep(d, height, inputs, n - 1); }
  }

  // ---- What a scan maintains ---------------------------------------------------------

  /** The `k`-th created record belongs to the `k`-th stored output. */
  ghost predicate CreatedMatches(created: seq<Created>, outputs: seq<StoredOutput>, height: nat) {
    && |created| == |outputs|
    && forall k | 0 <= k < |created| ::
         && created[k].ref.outputIndex == k
         && created[k].ref.creationHeight == height
         && outputs[k].spentHeight == UNSPENT
         && outputs[k].reused == created[k].ref.reused
  }

  /** The `k`-th spent record belongs to the `k`-th stored spend. */
  ghost predicate SpentMatches(spent: seq<Spent>, spends: seq<StoredSpend>, refs: Refs, height: nat) {
    && |spent| == |spends|
    && forall k | 0 <= k < |spent| ::
         && spent[k].spentHeight == height
         && spends[k] == StoredSpend(spent[k].ref.uid, spent[k].ref.creationHeight)
         && spent[k].outpoint in refs && refs[spent[k].outpoint] == spent[k].ref
  }

  ghost predicate SpentApart(spent: seq<Spent>) {
    forall p, q | 0 <= p < q < |spent| :: spent[p].outpoint != spent[q].outpoint
  }

  /**
   * After the inputs `ins` and the outputs `outs` have been scanned from `live0`: the live map is
   * the block's effect so far, and no scanned input is live.
   */
  ghost predicate Scanned(live0: Refs, d: Draft, height: nat, ins: set<OutPoint>, outs: set<OutPoint>) {
    && d.live == Effect(live0, d.parts.created, d.parts.spent)
    && SpentSet(d.parts.spent) <= ins
    && CreatedMap(d.parts.created).Keys <= outs
    && d.live.Keys !! ins
    && CreatedMatches(d.parts.created, d.parts.outputs, height)
    && SpentMatches(d.parts.spent, d.parts.spends, live0 + CreatedMap(d.parts.created), height)
    && SpentApart(d.parts.spent)
  }

  lemma {:induction false} SpentApartAppend(spent: seq<Spent>, s: Spent)
    requires SpentApart(spent) && s.outpoint !in SpentSet(spent)
    ensures SpentApart(spent + [s])
  {
    forall p | 0 <= p < |spent|
      ensures spent[p].outpoint != s.outpoint
    {
      SpentIn(spent, p);
    }
  }

  lemma {:induction false} ScannedInput(live0: Refs, d: Draft, height: nat, ins: set<OutPoint>, outs: set<OutPoint>,
                                        o: OutPoint)
    requires Scanned(live0, d, height, ins, outs) && SpendInput(d, height, o).Ok?
    ensures Scanned(live0, SpendInput(d, height, o).value, height, ins + {o}, outs)
  {
    if o in d.live {
      SpentSetAppend(d.parts.spent, Spent(o, d.live[o], height));
      SpentApartAppend(d.parts.spent, Spent(o, d.live[o], height));
      SpendAfter(live0, CreatedMap(d.parts.created), SpentSet(d.parts.spent), o);
    }
  }

  lemma {:induction false} ScannedInputs(live0: Refs, d: Draft, height: nat, ins: set<OutPoint>, outs: set<OutPoint>,
                                         inputs: seq<OutPoint>, n: nat)
    requires Scanned(live0, d, height, ins, outs) && n <= |inputs| && SpendInputs(d, height, inputs, n).Ok?
    ensures Scanned(live0, SpendInputs(d, height, inputs, n).value, height, ins + InputSet(inputs[..n]), outs)
  {
    if n == 0 {
      assert ins + InputSet(inputs[..0]) == ins;
    } else {
      ScannedInputs(live0, d, height, ins, outs, inputs, n - 1);
      ScannedInput(live0, SpendInputs(d, height, inputs, n - 1).value, height,
                   ins + InputSet(inputs[..n - 1]), outs, inputs[n - 1]);
      assert inputs[..n] == inputs[..n - 1] + [inputs[n - 1]];
      assert ins + InputSet(inputs[..n]) == ins + InputSet(inputs[..n - 1]) + {inputs[n - 1]};
    }
  }

  lemma {:induction false} SpentRefsKept(spent: seq<Spent>, spends: seq<StoredSpend>, refs: Refs, height: nat,
                                         o: OutPoint, ref: SpendRef)
    requires SpentMatches(spent, spends, refs, height) && o !in SpentSet(spent)
    ensures SpentMatches(spent, spends, refs[o := ref], height)
  {
    forall k | 0 <= k < |spent|
      ensures spent[k].outpoint != o
    {
      SpentIn(spent, k);
    }
  }

  lemma {:induction false} SpentIn(spent: seq<Spent>, k: nat)
    requires k < |spent|
    ensures spent[k].outpoint in SpentSet(spent)
  {
    if k < |spent| - 1 { SpentIn(spent[..|spent| - 1], k); }
  }

  lemma {:induction false} ScannedIndexed(live0: Refs, d: Draft, firstUid: nat, height: nat, ins: set<OutPoint>,
                                          outs: set<OutPoint>, o: OutPoint, key: Key)
    requires Scanned(live0, d, height, ins, outs) && o in outs && o !in ins
    requires IndexOutput(d, firstUid, height, o, key).Ok?
    ensures Scanned(live0, IndexOutput(d, firstUid, height, o, key).value, height, ins, outs)
  {
    var e := IndexOutput(d, firstUid, height, o, key).value;
    var created, spent := d.parts.created, d.parts.spent;
    var ref := e.parts.created[|created|].ref;
    CreatedMapAppend(created, Created(o, ref));
    CreateAfter(live0, CreatedMap(created), SpentSet(spent), o, ref);
    SpentRefsKept(spent, d.parts.spends, live0 + CreatedMap(created), height, o, ref);
    assert live0 + CreatedMap(created)[o := ref] == (live0 + CreatedMap(created))[o := ref];
  }

  lemma {:induction false} ScannedOutputs(live0: Refs, d: Draft, firstUid: nat, height: nat, ins: set<OutPoint>,
                                          outs: set<OutPoint>, tx: Tx, n: nat)
    requires Scanned(live0, d, height, ins, outs) && TxOutputs(tx) <= outs && TxOutputs(tx) !! ins
    requires n <= |tx.outputs| && AddOutputs(d, firstUid, height, tx, n).Ok?
    ensures Scanned(live0, AddOutputs(d, firstUid, height, tx, n).value, height, ins, outs)
  {
    if n > 0 {
      ScannedOutputs(live0, d, firstUid, height, ins, outs, tx, n - 1);
      var front := AddOutputs(d, firstUid, height, tx, n - 1).value;
      var output := tx.outputs[n - 1];
      var o := OutPoint(tx.txid, output.vout);
      assert o in TxOutputs(tx);
      if output.isP2tr && output.key.Some? && !output.isNums && tx.tweak.Some? {
        ScannedIndexed(live0, front, firstUid, height, ins, outs, o, output.key.value);
      }
    }
  }

  /** Nothing is created once it has been spent. */
  ghost predicate Ordered(txs: seq<Tx>) {
    forall t | 0 <= t < |txs| :: TxOutputs(txs[t]) !! InputsUpTo(txs, t + 1)
  }

  lemma {:induction false} ScannedTx(live0: Refs, d: Draft, firstUid: nat, height: nat, txs: seq<Tx>, t: nat)
    requires t < |txs| && Ordered(txs) && ScanTx(d, firstUid, height, txs[t]).Ok?
    requires Scanned(live0, d, height, InputsUpTo(txs, t), OutputsUpTo(txs, t))
    ensures Scanned(live0, ScanTx(d, firstUid, height, txs[t]).value, height, InputsUpTo(txs, t + 1),
        OutputsUpTo(txs, t + 1))
  {
    var tx := txs[t];
    var reset := d.(parts := d.parts.(inTx := 0));
    ScannedInputs(live0, reset, height, InputsUpTo(txs, t), OutputsUpTo(txs, t), tx.inputs, |tx.inputs|);
    assert tx.inputs[..|tx.inputs|] == tx.inputs;
    var mid := SpendInputs(reset, height, tx.inputs, |tx.inputs|).value;
    ScannedOutputs(live0, mid, firstUid, height, InputsUpTo(txs, t + 1), OutputsUpTo(txs, t + 1), tx, |tx.outputs|);
  }

  lemma {:induction false} ScannedTxs(m: Memory, firstUid: nat, b: Block, n: nat)
    requires n <= |b.txs| && Ordered(b.txs) && ApplyTxs(ScanStart(m, b), firstUid, b, n).Ok?
    ensures Scanned(m.live, ApplyTxs(ScanStart(m, b), firstUid, b, n).value.draft, b.height,
                    InputsUpTo(b.txs, n), OutputsUpTo(b.txs, n))
  {
    if n == 0 {
      assert m.live + map[] - {} == m.live;
    } else {
      ScannedTxs(m, firstUid, b, n - 1);
      ScannedTx(m.live, ApplyTxs(ScanStart(m, b), firstUid, b, n - 1).value.draft, firstUid, b.height, b.txs, n - 1);
    }
  }

  // ---- The block as a whole --------------------------------------------------------------

  /** The stored block carries the block's own header, number of transactions and size. */
  ghost predicate Names(s: StoredBlock, b: Block) {
    && s.height == b.height && s.blockHash == b.hash && s.previousHash == b.previousHash
    && s.txCount == |b.txs| && s.rawBytes == b.rawBytes
  }

  /**
   * The live map after a block is the old one with everything created added and everything
   * spent removed; no input stays live; and the spent records are the ones that were live.
   */
  ghost predicate ChangesLive(m: Memory, b: Block, next: Memory, a: Applied) {
    && next.live == Effect(m.live, a.created, a.spent)
    && next.live.Keys !! BlockInputs(b)
    && SpentSet(a.spent) <= BlockInputs(b)
    && CreatedMap(a.created).Keys <= BlockOutputs(b)
    && CreatedMatches(a.created, a.stored.outputs, b.height)
    && SpentMatches(a.spent, a.stored.spends, m.live + CreatedMap(a.created), b.height)
    && SpentApart(a.spent)
    && Names(a.stored, b)
  }

  lemma {:induction false} BlockChangesLive(hash: Hasher, m: Memory, b: Block)
    requires Ordered(b.txs) && ApplyBlock(hash, m, b).Ok?
    ensures var (next, a) := ApplyBlock(hash, m, b).value; ChangesLive(m, b, next, a)
  {
    ScannedTxs(m, FirstUid(m.lastUid), b, |b.txs|);
  }

  // ---- Without reuse tracking ---------------------------------------------------------------

  ghost predicate NoneReused(outputs: seq<StoredOutput>) {
    forall k | 0 <= k < |outputs| :: !outputs[k].reused
  }

  /** Reuse is not tracked, and no output is flagged as reused. */
  ghost predicate Untracked(d: Draft) {
    d.seen.None? && NoneReused(d.parts.outputs)
  }

  lemma {:induction false} UntrackedOutputs(d: Draft, firstUid: nat, height: nat, tx: Tx, n: nat)
    requires n <= |tx.outputs| && AddOutputs(d, firstUid, height, tx, n).Ok? && Untracked(d)
    ensures Untracked(AddOutputs(d, firstUid, height, tx, n).value)
  {
    if n > 0 { UntrackedOutputs(d, firstUid, height, tx, n - 1); }
  }

  lemma {:induction false} UntrackedTxs(s: Scan, firstUid: nat, b: Block, n: nat)
    requires n <= |b.txs| && ApplyTxs(s, firstUid, b, n).Ok? && Untracked(s.draft)
    ensures Untracked(ApplyTxs(s, firstUid, b, n).value.draft)
  {
    if n > 0 {
      UntrackedTxs(s, firstUid, b, n - 1);
      var front := ApplyTxs(s, firstUid, b, n - 1).value.draft;
      var tx := b.txs[n - 1];
      var reset := front.(parts := front.parts.(inTx := 0));
      SpendInputsKeep(reset, b.height, tx.inputs, |tx.inputs|);
      UntrackedOutputs(SpendInputs(reset, b.height, tx.inputs, |tx.inputs|).value, firstUid, b.height, tx,
                       |tx.outputs|);
    }
  }

  /** A state that does not track reuse never starts to, and flags no output. */
  lemma {:induction false} BlockStaysUntracked(hash: Hasher, m: Memory, b: Block)
    requires ApplyBlock(hash, m, b).Ok? && m.seen.None?
    ensures var (next, a) := ApplyBlock(hash, m, b).value; next.seen.None? && NoneReused(a.stored.outputs)
  {
    UntrackedTxs(ScanStart(m, b), FirstUid(m.lastUid), b, |b.txs|);
  }
}
