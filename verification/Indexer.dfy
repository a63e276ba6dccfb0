/** Applying one block to the in-memory state: UID assignment, spends, block assembly. */
module Indexer {
  import opened Wrappers
  import opened Words
  import opened HashPacking
  import opened TxBitmap
  import opened LightBlock
  import opened Chain

  /** What a spend needs to know about the output it spends. */
  datatype SpendRef = SpendRef(uid: nat, creationHeight: nat, outputIndex: nat, reused: bool)

  datatype Created = Created(outpoint: OutPoint, ref: SpendRef)

  datatype Spent = Spent(outpoint: OutPoint, ref: SpendRef, spentHeight: nat)

  /** The fields of the indexer state; `seen` is absent when reuse is not tracked. */
  datatype Memory = Memory(lastUid: nat, live: map<OutPoint, SpendRef>, seen: Option<set<Key>>)

  datatype Applied = Applied(stored: StoredBlock, light: LightBlock, created: seq<Created>, spent: seq<Spent>)

  datatype ApplyError =
    | TooManyTxs
    | CreationHeightTooLarge
    | TooManySlots
    | MissingKey
    | TooManyOutputsInTx
    | UidOverflow
    | TxIndexRejected
    | ResponseRejected(light: LightError)

  /** The vectors and counters filled while a block is scanned. */
  datatype Parts = Parts(
    slots: nat,
    inTx: nat,
    skippedOutputs: seq<nat>,
    outputs: seq<StoredOutput>,
    created: seq<Created>,
    spends: seq<StoredSpend>,
    spent: seq<Spent>,
    tweaks: seq<TweakEntry>)

  const NO_PARTS: Parts := Parts(0, 0, [], [], [], [], [], [])

  datatype Draft = Draft(live: map<OutPoint, SpendRef>, seen: Option<set<Key>>, parts: Parts)

  // ---- The steps as functions ------------------------------------------------------

  function SpendInput(d: Draft, height: nat, o: OutPoint): Result<Draft, ApplyError> {
    if o !in d.live then Ok(d)
    else if d.live[o].creationHeight > U32_MAX then Err(CreationHeightTooLarge)
    else
      var ref := d.live[o];
      Ok(Draft(d.live - {o}, d.seen, d.parts.(
           spends := d.parts.spends + [StoredSpend(ref.uid, ref.creationHeight)],
           spent := d.parts.spent + [Spent(o, ref, height)])))
  }

  function SpendInputs(d: Draft, height: nat, inputs: seq<OutPoint>, n: nat): Result<Draft, ApplyError>
    requires n <= |inputs|
  {
    if n == 0 then Ok(d)
    else
      match SpendInputs(d, height, inputs, n - 1)
      case Err(e) => Err(e)
      case Ok(front) => SpendInput(front, height, inputs[n - 1])
  }

  function NoteKey(seen: Option<set<Key>>, key: Key): Option<set<Key>> {
    match seen
    case None => None
    case Some(keys) => Some(keys + {key})
  }

  predicate WasSeen(seen: Option<set<Key>>, key: Key) {
    seen.Some? && key in seen.value
  }

  /** Adds a native output that is neither NUMS nor in a transaction without a tweak. */
  function IndexOutput(d: Draft, firstUid: nat, height: nat, o: OutPoint, key: Key): Result<Draft, ApplyError> {
    var p := d.parts;
    var ref := SpendRef(firstUid + p.slots, height, |p.outputs|, WasSeen(d.seen, key));
    if p.inTx == U16_MAX then Err(TooManyOutputsInTx)
    else if ref.uid > U64_MAX then Err(UidOverflow)
    else
      Ok(Draft(d.live[o := ref], NoteKey(d.seen, key), p.(
           slots := p.slots + 1,
           inTx := p.inTx + 1,
           outputs := p.outputs + [StoredOutput(key, UNSPENT, ref.reused)],
           created := p.created + [Created(o, ref)])))
  }

  function AddOutput(d: Draft, firstUid: nat, height: nat, tx: Tx, output: TxOutput): Result<Draft, ApplyError> {
    var p := d.parts;
    if !output.isP2tr then Ok(d)
    else if p.slots > U16_MAX then Err(TooManySlots)
    else if output.key.None? then Err(MissingKey)
    else if output.isNums || tx.tweak.None? then
      Ok(Draft(d.live, NoteKey(d.seen, output.key.value),
               p.(slots := p.slots + 1, skippedOutputs := p.skippedOutputs + [p.slots])))
    else IndexOutput(d, firstUid, height, OutPoint(tx.txid, output.vout), output.key.value)
  }

  function AddOutputs(d: Draft, firstUid: nat, height: nat, tx: Tx, n: nat): Result<Draft, ApplyError>
    requires n <= |tx.outputs|
  {
    if n == 0 then Ok(d)
    else
      match AddOutputs(d, firstUid, height, tx, n - 1)
      case Err(e) => Err(e)
      case Ok(front) => AddOutput(front, firstUid, height, tx, tx.outputs[n - 1])
  }

  /** A transaction's inputs, then its outputs, with a fresh per-transaction count. */
  function ScanTx(d: Draft, firstUid: nat, height: nat, tx: Tx): Result<Draft, ApplyError> {
    match SpendInputs(d.(parts := d.parts.(inTx := 0)), height, tx.inputs, |tx.inputs|)
    case Err(e) => Err(e)
    case Ok(mid) => AddOutputs(mid, firstUid, height, tx, |tx.outputs|)
  }

  /** The tweak entry of a transaction with indexed outputs. */
  function NoteTweak(p: Parts, tx: Tx): Parts {
    if p.inTx > 0 && tx.tweak.Some? then p.(tweaks := p.tweaks + [TweakEntry(p.inTx, tx.tweak.value)]) else p
  }

  /** A draft and the bitmap of transactions without a tweak entry. */
  datatype Scan = Scan(draft: Draft, bitmap: seq<bv8>)

  function ApplyTx(s: Scan, firstUid: nat, height: nat, txCount: nat, tx: Tx): Result<Scan, ApplyError> {
    match ScanTx(s.draft, firstUid, height, tx)
    case Err(e) => Err(e)
    case Ok(d) =>
      if d.parts.inTx > 0 then Ok(Scan(d.(parts := NoteTweak(d.parts, tx)), s.bitmap))
      else if !ValidBitmap(txCount, s.bitmap) || tx.txIndex >= txCount then Err(TxIndexRejected)
      else Ok(Scan(d, WithTx(s.bitmap, tx.txIndex)))
  }

  function ApplyTxs(s: Scan, firstUid: nat, b: Block, n: nat): Result<Scan, ApplyError>
    requires n <= |b.txs|
  {
    if n == 0 then Ok(s)
    else
      match ApplyTxs(s, firstUid, b, n - 1)
      case Err(e) => Err(e)
      case Ok(front) => ApplyTx(front, firstUid, b.height, |b.txs|, b.txs[n - 1])
  }

  function FirstUid(lastUid: nat): nat {
    if lastUid >= U64_MAX then U64_MAX else lastUid + 1
  }

  function HashesFor(hash: Hasher, b: Block, outputs: seq<StoredOutput>, budget: nat): seq<bv8> {
    HashBitsRange(|outputs|, b.rawBytes, budget);
    PackedHashes(hash, OutputKeys(outputs), ChooseHashBits(|outputs|, b.rawBytes, budget))
  }

  function Assemble(hash: Hasher, b: Block, firstUid: nat, p: Parts, bitmap: seq<bv8>): StoredBlock {
    StoredBlock(b.height, b.hash, b.previousHash, firstUid, |b.txs|, bitmap, p.tweaks, p.skippedOutputs,
                p.outputs, p.spends, b.rawBytes,
                HashesFor(hash, b, p.outputs, BUDGET_TWO), HashesFor(hash, b, p.outputs, BUDGET_HUNDRED))
  }

  /** The last UID after a block that began at `firstUid` and had `slots` native outputs. */
  function NextUid(lastUid: nat, slots: nat): Result<nat, ApplyError> {
    if slots == 0 then Ok(lastUid)
    else if FirstUid(lastUid) + slots > U64_MAX then Err(UidOverflow)
    else Ok(FirstUid(lastUid) + slots - 1)
  }

  function ScanStart(m: Memory, b: Block): Scan {
    Scan(Draft(m.live, m.seen, NO_PARTS), EmptyBitmap(|b.txs|))
  }

  /** The new state and everything the block produced. */
  function ApplyBlock(hash: Hasher, m: Memory, b: Block): Result<(Memory, Applied), ApplyError> {
    if |b.txs| > U16_MAX then Err(TooManyTxs)
    else
      match ApplyTxs(ScanStart(m, b), FirstUid(m.lastUid), b, |b.txs|)
      case Err(e) => Err(e)
      case Ok(s) =>
        match NextUid(m.lastUid, s.draft.parts.slots)
        case Err(e) => Err(e)
        case Ok(lastUid) =>
          var stored := Assemble(hash, b, FirstUid(m.lastUid), s.draft.parts, s.bitmap);
          match ResponseForLabels(stored, None)
          case Err(e) => Err(ResponseRejected(e))
          case Ok(light) =>
            Ok((Memory(lastUid, s.draft.live, s.draft.seen),
                Applied(stored, light, s.draft.parts.created, s.draft.parts.spent)))
  }

  /** The first `n` candidates include one for `o`. */
  ghost predicate Offered(candidates: seq<(OutPoint, SpendRef)>, n: nat, o: OutPoint)
    requires n <= |candidates|
  {
    exists i | 0 <= i < n :: candidates[i].0 == o
  }

  lemma {:induction false} RemovedOne(live: map<OutPoint, SpendRef>, o: OutPoint)
    ensures |live - {o}| + (if o in live then 1 else 0) == |live|
  {
    var less := live - {o};
    if o in live {
      assert live == less[o := live[o]];
    } else {
      assert live == less;
    }
  }

  // ---- The indexer as the program runs it ------------------------------------------

  class P2trIndexerState {
    var lastUid: nat
    var outpointToSpend: map<OutPoint, SpendRef>
    var seenKeys: Option<set<Key>>

    ghost function State(): Memory
      reads this
    {
      Memory(lastUid, outpointToSpend, seenKeys)
    }

    ghost function Drafted(p: Parts): Draft
      reads this
    {
      Draft(outpointToSpend, seenKeys, p)
    }

    /** The state a run starts from: no cached outpoints and no reuse tracking. */
    constructor RestoreAtUid(uid: nat)
      ensures State() == Memory(uid, map[], None)
    {
      lastUid, outpointToSpend, seenKeys := uid, map[], None;
    }

    predicate ContainsOutpoint(o: OutPoint)
      reads this
    {
      o in outpointToSpend
    }

    /** Inserts the candidates whose outpoint is vacant; returns those outpoints. */
    method CacheSpendUidCandidates(candidates: seq<(OutPoint, SpendRef)>) returns (cached: seq<OutPoint>)
      modifies this
      ensures lastUid == old(lastUid) && seenKeys == old(seenKeys)
      ensures forall o :: o in outpointToSpend <==> (o in old(outpointToSpend) || Offered(candidates, |candidates|, o))
      ensures forall o | o in old(outpointToSpend) :: outpointToSpend[o] == old(outpointToSpend)[o]
      ensures forall o | o in outpointToSpend && o !in old(outpointToSpend) ::
        exists i | 0 <= i < |candidates| :: candidates[i] == (o, outpointToSpend[o])
      ensures forall o :: o in cached <==> o in outpointToSpend && o !in old(outpointToSpend)
    {
      cached := [];
      for i := 0 to |candidates|
        invariant lastUid == old(lastUid) && seenKeys == old(seenKeys)
        invariant forall o :: o in outpointToSpend <==> (o in old(outpointToSpend) || Offered(candidates, i, o))
        invariant forall o | o in old(outpointToSpend) :: outpointToSpend[o] == old(outpointToSpend)[o]
        invariant forall o | o in outpointToSpend && o !in old(outpointToSpend) ::
          exists j | 0 <= j < i :: candidates[j] == (o, outpointToSpend[o])
        invariant forall o :: o in cached <==> o in outpointToSpend && o !in old(outpointToSpend)
      {
        var (outpoint, spend) := candidates[i];
        if outpoint !in outpointToSpend {
          outpointToSpend := outpointToSpend[outpoint := spend];
          cached := cached + [outpoint];
        }
      }
    }

    method EvictSpendUidCandidates(cached: seq<OutPoint>) returns (evicted: nat)
      modifies this
      ensures lastUid == old(lastUid) && seenKeys == old(seenKeys)
      ensures outpointToSpend == old(outpointToSpend) - InputSet(cached)
      ensures |outpointToSpend| + evicted == |old(outpointToSpend)|
    {
      evicted := 0;
      for i := 0 to |cached|
        invariant lastUid == old(lastUid) && seenKeys == old(seenKeys)
        invariant outpointToSpend == old(outpointToSpend) - InputSet(cached[..i])
        invariant |outpointToSpend| + evicted == |old(outpointToSpend)|
      {
        assert cached[..i + 1] == cached[..i] + [cached[i]];
        RemovedOne(outpointToSpend, cached[i]);
        if cached[i] in outpointToSpend {
          evicted := evicted + 1;
        }
        outpointToSpend := outpointToSpend - {cached[i]};
      }
      assert cached[..|cached|] == cached;
    }

    method SpendTxInputs(height: nat, tx: Tx, start: Parts) returns (r: Result<Parts, ApplyError>)
      modifies this
      ensures lastUid == old(lastUid)
      ensures var spec := SpendInputs(old(Drafted(start)), height, tx.inputs, |tx.inputs|);
              match r
              case Err(e) => spec == Err(e)
              case Ok(p) => spec.Ok? && spec.value == Drafted(p)
    {
      var p := start;
      for i := 0 to |tx.inputs|
        invariant lastUid == old(lastUid)
        invariant var spec := SpendInputs(old(Drafted(start)), height, tx.inputs, i);
                  spec.Ok? && spec.value == Drafted(p)
      {
        var o := tx.inputs[i];
        if o in outpointToSpend {
          var ref := outpointToSpend[o];
          outpointToSpend := outpointToSpend - {o};
          if ref.creationHeight > U32_MAX {
            SpendInputsFail(old(Drafted(start)), height, tx.inputs, i + 1, |tx.inputs|);
            return Err(CreationHeightTooLarge);
          }
          p := p.(spends := p.spends + [StoredSpend(ref.uid, ref.creationHeight)],
                  spent := p.spent + [Spent(o, ref, height)]);
        }
      }
      r := Ok(p);
    }

    method AddTxOutputs(firstUid: nat, height: nat, tx: Tx, start: Parts) returns (r: Result<Parts, ApplyError>)
      modifies this
      ensures lastUid == old(lastUid)
      ensures var spec := AddOutputs(old(Drafted(start)), firstUid, height, tx, |tx.outputs|);
              match r
              case Err(e) => spec == Err(e)
              case Ok(p) => spec.Ok? && spec.value == Drafted(p)
    {
      var p := start;
      for i := 0 to |tx.outputs|
        invariant lastUid == old(lastUid)
        invariant var spec := AddOutputs(old(Drafted(start)), firstUid, height, tx, i);
                  spec.Ok? && spec.value == Drafted(p)
      {
        var next := AddTxOutput(firstUid, height, tx, tx.outputs[i], p);
        if next.Err? {
          AddOutputsFail(old(Drafted(start)), firstUid, height, tx, i + 1, |tx.outputs|);
          return next;
        }
        p := next.value;
      }
      r := Ok(p);
    }

    method AddTxOutput(firstUid: nat, height: nat, tx: Tx, output: TxOutput, p: Parts)
      returns (r: Result<Parts, ApplyError>)
      modifies this
      ensures lastUid == old(lastUid)
      ensures var spec := AddOutput(old(Drafted(p)), firstUid, height, tx, output);
              match r
              case Err(e) => spec == Err(e)
              case Ok(q) => spec.Ok? && spec.value == Drafted(q)
    {
      if !output.isP2tr {
        return Ok(p);
      }
      if p.slots > U16_MAX {
        return Err(TooManySlots);
      }
      if output.key.None? {
        return Err(MissingKey);
      }
      var key := output.key.value;
      var reused := false;
      if seenKeys.Some? {
        reused := key in seenKeys.value;
        seenKeys := Some(seenKeys.value + {key});
      }
      if output.isNums || tx.tweak.None? {
        return Ok(p.(slots := p.slots + 1, skippedOutputs := p.skippedOutputs + [p.slots]));
      }
      if p.inTx == U16_MAX {
        return Err(TooManyOutputsInTx);
      }
      var uid := firstUid + p.slots;
      if uid > U64_MAX {
        return Err(UidOverflow);
      }
      var outpoint := OutPoint(tx.txid, output.vout);
      var ref := SpendRef(uid, height, |p.outputs|, reused);
      outpointToSpend := outpointToSpend[outpoint := ref];
      r := Ok(p.(slots := p.slots + 1, inTx := p.inTx + 1,
                 outputs := p.outputs + [StoredOutput(key, UNSPENT, reused)],
                 created := p.created + [Created(outpoint, ref)]));
    }

    method ApplyBlockWithStats(hash: Hasher, b: Block) returns (r: Result<Applied, ApplyError>)
      modifies this
      ensures var spec := ApplyBlock(hash, old(State()), b);
              match r
              case Err(e) => spec == Err(e)
              case Ok(applied) => spec.Ok? && spec.value.1 == applied && spec.value.0 == State()
    {
      var firstUid := FirstUid(lastUid);
      if |b.txs| > U16_MAX {
        return Err(TooManyTxs);
      }
      var scanned := ScanTxs(firstUid, b);
      if scanned.Err? {
        return Err(scanned.error);
      }
      var (p, bitmap) := scanned.value;
      var next := NextUid(lastUid, p.slots);
      if next.Err? {
        return Err(next.error);
      }
      lastUid := next.value;
      var stored := Assemble(hash, b, firstUid, p, bitmap);
      var light := ResponseForLabels(stored, None);
      if light.Err? {
        return Err(ResponseRejected(light.error));
      }
      r := Ok(Applied(stored, light.value, p.created, p.spent));
    }

    /** Scans every transaction, filling the parts and the bitmap. */
    method ScanTxs(firstUid: nat, b: Block) returns (r: Result<(Parts, seq<bv8>), ApplyError>)
      modifies this
      ensures lastUid == old(lastUid)
      ensures var spec := ApplyTxs(ScanStart(old(State()), b), firstUid, b, |b.txs|);
              match r
              case Err(e) => spec == Err(e)
              case Ok(v) => spec.Ok? && spec.value == Scan(Drafted(v.0), v.1)
    {
      var p := NO_PARTS;
      var bitmap := new bv8[|EmptyBitmap(|b.txs|)|](i => 0);
      assert bitmap[..] == EmptyBitmap(|b.txs|);
      for i := 0 to |b.txs|
        invariant lastUid == old(lastUid)
        invariant var spec := ApplyTxs(ScanStart(old(State()), b), firstUid, b, i);
                  spec.Ok? && spec.value == Scan(Drafted(p), bitmap[..])
      {
        var next := ScanOneTx(firstUid, b.height, |b.txs|, b.txs[i], p, bitmap);
        if next.Err? {
          ApplyTxsFail(ScanStart(old(State()), b), firstUid, b, i + 1, |b.txs|);
          return Err(next.error);
        }
        p := next.value;
      }
      r := Ok((p, bitmap[..]));
    }

    method ScanOneTx(firstUid: nat, height: nat, txCount: nat, tx: Tx, start: Parts, bitmap: array<bv8>)
      returns (r: Result<Parts, ApplyError>)
      modifies this, bitmap
      ensures lastUid == old(lastUid)
      ensures var spec := ApplyTx(Scan(old(Drafted(start)), old(bitmap[..])), firstUid, height, txCount, tx);
              match r
              case Err(e) => spec == Err(e)
              case Ok(p) => spec.Ok? && spec.value == Scan(Drafted(p), bitmap[..])
    {
      var mid := SpendTxInputs(height, tx, start.(inTx := 0));
      if mid.Err? {
        return mid;
      }
      var end := AddTxOutputs(firstUid, height, tx, mid.value);
      if end.Err? {
        return end;
      }
      var p := end.value;
      if p.inTx > 0 {
        if tx.tweak.Some? {
          p := p.(tweaks := p.tweaks + [TweakEntry(p.inTx, tx.tweak.value)]);
        }
      } else {
        var ok := SetSkipped(txCount, bitmap, tx.txIndex);
        if !ok {
          return Err(TxIndexRejected);
        }
      }
      r := Ok(p);
    }
  }

  // ---- A failed step fails the rest ---------------------------------------------------

  lemma {:induction false} SpendInputsFail(d: Draft, height: nat, inputs: seq<OutPoint>, n: nat, larger: nat)
    requires n <= larger <= |inputs| && SpendInputs(d, height, inputs, n).Err?
    ensures SpendInputs(d, height, inputs, larger) == SpendInputs(d, height, inputs, n)
  {
    if n < larger { SpendInputsFail(d, height, inputs, n, larger - 1); }
  }

  lemma {:induction false} AddOutputsFail(d: Draft, firstUid: nat, height: nat, tx: Tx, n: nat, larger: nat)
    requires n <= larger <= |tx.outputs| && AddOutputs(d, firstUid, height, tx, n).Err?
    ensures AddOutputs(d, firstUid, height, tx, larger) == AddOutputs(d, firstUid, height, tx, n)
  {
    if n < larger { AddOutputsFail(d, firstUid, height, tx, n, larger - 1); }
  }

  lemma {:induction false} ApplyTxsFail(s: Scan, firstUid: nat, b: Block, n: nat, larger: nat)
    requires n <= larger <= |b.txs| && ApplyTxs(s, firstUid, b, n).Err?
    ensures ApplyTxs(s, firstUid, b, larger) == ApplyTxs(s, firstUid, b, n)
  {
    if n < larger { ApplyTxsFail(s, firstUid, b, n, larger - 1); }
  }
}
