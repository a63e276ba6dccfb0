/** A live map that leaves out outpoints a block does not touch gives the same block. */
module PartialMemory {
  import opened Wrappers
  import opened HashPacking
  import opened Chain
  import opened Indexer
  import opened BlockEffect

  /** `hidden` holds outpoints that are neither live nor scanned. */
  ghost predicate Untouched(hidden: Refs, live: Refs, ins: set<OutPoint>, outs: set<OutPoint>) {
    hidden.Keys !! live.Keys && hidden.Keys !! ins && hidden.Keys !! outs
  }

  /** The same draft with the hidden outpoints live as well. */
  ghost function Revealed(d: Draft, hidden: Refs): Draft {
    d.(live := d.live + hidden)
  }

  /** Both drafts fail alike, or succeed with drafts that differ by `hidden` only. */
  ghost predicate SameDraft(full: Result<Draft, ApplyError>, partial: Result<Draft, ApplyError>, hidden: Refs) {
    match partial
    case Err(e) => full == Err(e)
    case Ok(d) => full == Ok(Revealed(d, hidden)) && d.live.Keys !! hidden.Keys
  }

  lemma {:induction false} RemoveBeside(live: Refs, hidden: Refs, o: OutPoint)
    requires o !in hidden
    ensures live - {o} + hidden == live + hidden - {o}
  {
  }

  lemma {:induction false} InsertBeside(live: Refs, hidden: Refs, o: OutPoint, ref: SpendRef)
    requires o !in hidden
    ensures live[o := ref] + hidden == (live + hidden)[o := ref]
  {
  }

  lemma {:induction false} HiddenInputs(d: Draft, hidden: Refs, height: nat, inputs: seq<OutPoint>, n: nat)
    requires hidden.Keys !! d.live.Keys && hidden.Keys !! InputSet(inputs) && n <= |inputs|
    ensures SameDraft(SpendInputs(Revealed(d, hidden), height, inputs, n), SpendInputs(d, height, inputs, n), hidden)
  {
    if n > 0 {
      HiddenInputs(d, hidden, height, inputs, n - 1);
      var front := SpendInputs(d, height, inputs, n - 1);
      if front.Ok? {
        RemoveBeside(front.value.live, hidden, inputs[n - 1]);
      }
    }
  }

  lemma {:induction false} HiddenOutput(d: Draft, hidden: Refs, firstUid: nat, height: nat, tx: Tx, output: TxOutput)
    requires hidden.Keys !! d.live.Keys && OutPoint(tx.txid, output.vout) !in hidden
    ensures SameDraft(AddOutput(Revealed(d, hidden), firstUid, height, tx, output),
                      AddOutput(d, firstUid, height, tx, output), hidden)
  {
    if output.key.Some? {
      var p := d.parts;
      var ref := SpendRef(firstUid + p.slots, height, |p.outputs|, WasSeen(d.seen, output.key.value));
      InsertBeside(d.live, hidden, OutPoint(tx.txid, output.vout), ref);
    }
  }

  lemma {:induction false} HiddenOutputs(d: Draft, hidden: Refs, firstUid: nat, height: nat, tx: Tx, n: nat)
    requires hidden.Keys !! d.live.Keys && hidden.Keys !! TxOutputs(tx) && n <= |tx.outputs|
    ensures SameDraft(AddOutputs(Revealed(d, hidden), firstUid, height, tx, n),
                      AddOutputs(d, firstUid, height, tx, n), hidden)
  {
    if n > 0 {
      HiddenOutputs(d, hidden, firstUid, height, tx, n - 1);
      var front := AddOutputs(d, firstUid, height, tx, n - 1);
      assert OutPoint(tx.txid, tx.outputs[n - 1].vout) in TxOutputs(tx);
      if front.Ok? {
        HiddenOutput(front.value, hidden, firstUid, height, tx, tx.outputs[n - 1]);
      }
    }
  }

  lemma {:induction false} HiddenTx(d: Draft, hidden: Refs, firstUid: nat, height: nat, tx: Tx)
    requires hidden.Keys !! d.live.Keys && hidden.Keys !! TxInputs(tx) && hidden.Keys !! TxOutputs(tx)
    ensures SameDraft(ScanTx(Revealed(d, hidden), firstUid, height, tx), ScanTx(d, firstUid, height, tx), hidden)
  {
    var reset := d.(parts := d.parts.(inTx := 0));
    HiddenInputs(reset, hidden, height, tx.inputs, |tx.inputs|);
    var mid := SpendInputs(reset, height, tx.inputs, |tx.inputs|);
    if mid.Ok? {
      HiddenOutputs(mid.value, hidden, firstUid, height, tx, |tx.outputs|);
    }
  }

  lemma {:induction false} HiddenTxs(m: Memory, hidden: Refs, firstUid: nat, b: Block, n: nat)
    requires n <= |b.txs| && Untouched(hidden, m.live, InputsUpTo(b.txs, n), OutputsUpTo(b.txs, n))
    ensures var full := ApplyTxs(ScanStart(m.(live := m.live + hidden), b), firstUid, b, n);
            var partial := ApplyTxs(ScanStart(m, b), firstUid, b, n);
            match partial
            case Err(e) => full == Err(e)
            case Ok(s) => full == Ok(Scan(Revealed(s.draft, hidden), s.bitmap)) && s.draft.live.Keys !! hidden.Keys
  {
    if n > 0 {
      HiddenTxs(m, hidden, firstUid, b, n - 1);
      var front := ApplyTxs(ScanStart(m, b), firstUid, b, n - 1);
      if front.Ok? {
        HiddenTx(front.value.draft, hidden, firstUid, b.height, b.txs[n - 1]);
      }
    }
  }

  /** Both applications fail alike, or produce the same and differ by `hidden` only. */
  ghost predicate SameBlock(full: Result<(Memory, Applied), ApplyError>,
                            partial: Result<(Memory, Applied), ApplyError>, hidden: Refs)
  {
    match partial
    case Err(e) => full == Err(e)
    case Ok(r) =>
      && full == Ok((r.0.(live := r.0.live + hidden), r.1))
      && r.0.live.Keys !! hidden.Keys
  }

  /** Live outpoints a block neither spends nor creates do not influence it and stay live. */
  lemma {:induction false} HiddenBlock(hash: Hasher, m: Memory, hidden: Refs, b: Block)
    requires Untouched(hidden, m.live, BlockInputs(b), BlockOutputs(b))
    ensures SameBlock(ApplyBlock(hash, m.(live := m.live + hidden), b), ApplyBlock(hash, m, b), hidden)
  {
    HiddenTxs(m, hidden, FirstUid(m.lastUid), b, |b.txs|);
  }
}
