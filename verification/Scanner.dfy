/** The statistics scanner's serial commit and the laws its counters obey. */
module Scanner {
  import opened Wrappers
  import opened Words
  import opened Seqs
  import opened Chain
  import SpentIds
  import opened CodecCosts

  datatype ScriptType = P2pk | P2pkh | P2sh | P2wpkh | P2wsh | P2tr | P2a | OpReturn | Unknown

  function Code(t: ScriptType): (code: nat)
    ensures code < 9
  {
    match t
    case P2pk => 0
    case P2pkh => 1
    case P2sh => 2
    case P2wpkh => 3
    case P2wsh => 4
    case P2tr => 5
    case P2a => 6
    case OpReturn => 7
    case Unknown => 8
  }

  function TypeOfCode(code: nat): ScriptType {
    match code
    case 0 => P2pk
    case 1 => P2pkh
    case 2 => P2sh
    case 3 => P2wpkh
    case 4 => P2wsh
    case 5 => P2tr
    case 6 => P2a
    case 7 => OpReturn
    case _ => Unknown
  }

  // ---- Packed entries ------------------------------------------------------------

  const MAX_ID: nat := U64_MAX / 16

  /** `(id << 4) | type` on a 64-bit word: the shift drops the bits of `id` above the sixtieth. */
  function Pack(id: nat, t: ScriptType): nat {
    16 * (id % (MAX_ID + 1)) + Code(t)
  }

  /** An entry as it is read: the identifier in the upper sixty bits, the type in the lower four. */
  datatype Entry = Entry(id: nat, scriptType: ScriptType)

  function Unpack(packed: nat): Entry {
    Entry(packed / 16, TypeOfCode(packed % 16))
  }

  /** What is read back after an entry has been packed. */
  function Stored(id: nat, t: ScriptType): Entry {
    Unpack(Pack(id, t))
  }

  /** The type always survives packing; the identifier does exactly when it fits 60 bits. */
  lemma {:induction false} PackIff(id: nat, t: ScriptType)
    requires id <= U64_MAX
    ensures Stored(id, t).scriptType == t
    ensures Stored(id, t).id == id <==> 16 * id <= U64_MAX
  {
    Nibble(id % (MAX_ID + 1), Code(t));
    Remainder(id, MAX_ID + 1);
    assert TypeOfCode(Code(t)) == t;
  }

  lemma {:induction false} Remainder(n: nat, bound: nat)
    requires bound > 0
    ensures n % bound == n <==> n < bound
  {
  }

  lemma {:induction false} Nibble(high: nat, low: nat)
    requires low < 16
    ensures (16 * high + low) / 16 == high && (16 * high + low) % 16 == low
  {
  }

  // ---- The state ------------------------------------------------------------

  datatype ScanTx = ScanTx(isCoinbase: bool, txid: nat, inputs: seq<OutPoint>, outputs: seq<ScriptType>)

  /** One counter per script type. */
  type TypeCounts = counts: seq<nat> | |counts| == 9 witness [0, 0, 0, 0, 0, 0, 0, 0, 0]

  function Bump(counts: TypeCounts, t: ScriptType): TypeCounts {
    counts[Code(t) := counts[Code(t)] + 1]
  }

  datatype State = State(
    lastId: nat,
    utxo: map<OutPoint, Entry>,
    outputs: nat,
    spends: nat,
    missing: nat,
    sameTx: nat,
    sameBlock: nat,
    outputsBy: TypeCounts,
    inputsBy: TypeCounts,
    spentUids: seq<nat>,
    p2trUids: seq<nat>)

  function Empty(): State {
    State(0, map[], 0, 0, 0, 0, 0, [0, 0, 0, 0, 0, 0, 0, 0, 0], [0, 0, 0, 0, 0, 0, 0, 0, 0], [], [])
  }

  /** One input, in a transaction and a block that began with the given last identifiers. */
  function SpendOne(s: State, txStart: nat, blockStart: nat, o: OutPoint): State {
    if o !in s.utxo then s.(missing := s.missing + 1)
    else
      var Entry(id, t) := s.utxo[o];
      s.(utxo := s.utxo - {o},
         spends := s.spends + 1,
         sameTx := s.sameTx + (if id > txStart then 1 else 0),
         sameBlock := s.sameBlock + (if blockStart < id <= txStart then 1 else 0),
         inputsBy := Bump(s.inputsBy, t),
         spentUids := s.spentUids + [id],
         p2trUids := s.p2trUids + (if t == P2tr then [id] else []))
  }

  function CreateOne(s: State, o: OutPoint, t: ScriptType): State {
    s.(lastId := s.lastId + 1,
       utxo := s.utxo[o := Stored(s.lastId + 1, t)],
       outputs := s.outputs + 1,
       outputsBy := Bump(s.outputsBy, t))
  }

  /** The first `n` inputs of a transaction. */
  function SpendAll(s: State, txStart: nat, blockStart: nat, inputs: seq<OutPoint>, n: nat): State
    requires n <= |inputs|
  {
    if n == 0 then s else SpendOne(SpendAll(s, txStart, blockStart, inputs, n - 1), txStart, blockStart, inputs[n - 1])
  }

  /** The first `n` outputs of a transaction. */
  function CreateAll(s: State, tx: ScanTx, n: nat): State
    requires n <= |tx.outputs|
  {
    if n == 0 then s else CreateOne(CreateAll(s, tx, n - 1), OutPoint(tx.txid, n - 1), tx.outputs[n - 1])
  }

  /** A coinbase's inputs are not looked up. */
  function AfterTx(s: State, tx: ScanTx, blockStart: nat): State {
    CreateAll(if tx.isCoinbase then s else SpendAll(s, s.lastId, blockStart, tx.inputs, |tx.inputs|), tx, |tx.outputs|)
  }

  function AfterTxs(s: State, txs: seq<ScanTx>, blockStart: nat, n: nat): State
    requires n <= |txs|
  {
    if n == 0 then s else AfterTx(AfterTxs(s, txs, blockStart, n - 1), txs[n - 1], blockStart)
  }

  /** A block begins with empty per-block lists. */
  function AfterBlock(s: State, txs: seq<ScanTx>): State {
    AfterTxs(s.(spentUids := [], p2trUids := []), txs, s.lastId, |txs|)
  }

  function AfterBlocks(blocks: seq<seq<ScanTx>>, n: nat): State
    requires n <= |blocks|
  {
    if n == 0 then Empty() else AfterBlock(AfterBlocks(blocks, n - 1), blocks[n - 1])
  }

  // ---- The laws ------------------------------------------------------------

  ghost function LiveOf(utxo: map<OutPoint, Entry>, t: ScriptType): set<OutPoint> {
    set o | o in utxo && utxo[o].scriptType == t
  }

  ghost predicate Balanced(s: State, t: ScriptType) {
    s.outputsBy[Code(t)] == s.inputsBy[Code(t)] + |LiveOf(s.utxo, t)|
  }

  /** Every output is live or spent, in total and by type. */
  ghost predicate Conserved(s: State) {
    && s.outputs == s.spends + |s.utxo.Keys|
    && forall t: ScriptType :: Balanced(s, t)
  }

  /** Live identifiers are distinct and lie in `1..lastId`. */
  ghost predicate IdsLive(s: State) {
    && (forall o | o in s.utxo :: 1 <= s.utxo[o].id <= s.lastId)
    && (forall o, p | o in s.utxo && p in s.utxo && s.utxo[o].id == s.utxo[p].id :: o == p)
  }

  /** The identifiers spent in the block are distinct, in range and no longer live. */
  ghost predicate UidsSpent(s: State, uids: seq<nat>) {
    && SpentIds.Distinct(uids)
    && (forall i | 0 <= i < |uids| :: 1 <= uids[i] <= s.lastId)
    && (forall i, o | 0 <= i < |uids| && o in s.utxo :: uids[i] != s.utxo[o].id)
  }

  ghost predicate Laws(s: State) {
    && s.lastId == s.outputs && s.sameTx == 0
    && Conserved(s) && IdsLive(s) && UidsSpent(s, s.spentUids) && UidsSpent(s, s.p2trUids)
  }

  lemma {:induction false} UidsSpentMore(s: State, r: State, uids: seq<nat>, o: OutPoint)
    requires UidsSpent(s, uids) && IdsLive(s) && o in s.utxo && r.utxo == s.utxo - {o} && r.lastId == s.lastId
    ensures UidsSpent(r, uids) && UidsSpent(r, uids + [s.utxo[o].id])
  {
  }

  lemma {:induction false} SpendConserves(s: State, txStart: nat, blockStart: nat, o: OutPoint)
    requires Conserved(s) && o in s.utxo
    ensures Conserved(SpendOne(s, txStart, blockStart, o))
  {
    var r := SpendOne(s, txStart, blockStart, o);
    assert r.utxo.Keys == s.utxo.Keys - {o};
    forall t: ScriptType
      ensures Balanced(r, t)
    {
      assert Balanced(s, t) && TypeOfCode(Code(t)) == t;
      if t == s.utxo[o].scriptType {
        assert LiveOf(r.utxo, t) == LiveOf(s.utxo, t) - {o};
      } else {
        assert LiveOf(r.utxo, t) == LiveOf(s.utxo, t);
      }
    }
  }

  lemma {:induction false} SpendKeepsLaws(s: State, txStart: nat, blockStart: nat, o: OutPoint)
    requires Laws(s) && s.lastId <= txStart
    ensures Laws(SpendOne(s, txStart, blockStart, o))
  {
    var r := SpendOne(s, txStart, blockStart, o);
    if o !in s.utxo {
      forall t: ScriptType
        ensures Balanced(r, t)
      {
        assert Balanced(s, t);
      }
    } else {
      SpendConserves(s, txStart, blockStart, o);
      UidsSpentMore(s, r, s.spentUids, o);
      UidsSpentMore(s, r, s.p2trUids, o);
    }
  }

  lemma {:induction false} LiveOfInsert(utxo: map<OutPoint, Entry>, o: OutPoint, entry: Entry, u: ScriptType)
    requires o !in utxo
    ensures |LiveOf(utxo[o := entry], u)| == |LiveOf(utxo, u)| + (if u == entry.scriptType then 1 else 0)
  {
    if u == entry.scriptType {
      assert LiveOf(utxo[o := entry], u) == LiveOf(utxo, u) + {o};
    } else {
      assert LiveOf(utxo[o := entry], u) == LiveOf(utxo, u);
    }
  }

  /** While identifiers fit 60 bits an entry is read back as it was written. */
  lemma {:induction false} StoredEntry(id: nat, t: ScriptType)
    requires id <= MAX_ID
    ensures Stored(id, t) == Entry(id, t)
  {
    PackIff(id, t);
  }

  lemma {:induction false} CreateBalances(s: State, o: OutPoint, t: ScriptType, u: ScriptType)
    requires Balanced(s, u) && o !in s.utxo && s.lastId < MAX_ID
    ensures Balanced(CreateOne(s, o, t), u)
  {
    StoredEntry(s.lastId + 1, t);
    assert TypeOfCode(Code(u)) == u && TypeOfCode(Code(t)) == t;
    LiveOfInsert(s.utxo, o, Entry(s.lastId + 1, t), u);
  }

  lemma {:induction false} CreateConserves(s: State, o: OutPoint, t: ScriptType)
    requires Conserved(s) && o !in s.utxo && s.lastId < MAX_ID
    ensures Conserved(CreateOne(s, o, t))
  {
    var r := CreateOne(s, o, t);
    StoredEntry(s.lastId + 1, t);
    assert r.utxo.Keys == s.utxo.Keys + {o};
    forall u: ScriptType
      ensures Balanced(r, u)
    {
      CreateBalances(s, o, t, u);
    }
  }

  /** A new entry carries the next identifier, above every live and every spent one. */
  lemma {:induction false} InsertIds(s: State, r: State, o: OutPoint, entry: Entry)
    requires IdsLive(s) && entry.id == s.lastId + 1 == r.lastId && r.utxo == s.utxo[o := entry]
    ensures IdsLive(r)
  {
  }

  lemma {:induction false} InsertUids(s: State, r: State, o: OutPoint, entry: Entry, uids: seq<nat>)
    requires UidsSpent(s, uids) && entry.id == s.lastId + 1 == r.lastId && r.utxo == s.utxo[o := entry]
    ensures UidsSpent(r, uids)
  {
  }

  lemma {:induction false} CreateKeepsLaws(s: State, o: OutPoint, t: ScriptType)
    requires Laws(s) && o !in s.utxo && s.lastId < MAX_ID
    ensures Laws(CreateOne(s, o, t))
  {
    var r, entry := CreateOne(s, o, t), Entry(s.lastId + 1, t);
    StoredEntry(s.lastId + 1, t);
    CreateConserves(s, o, t);
    InsertIds(s, r, o, entry);
    InsertUids(s, r, o, entry, s.spentUids);
    InsertUids(s, r, o, entry, s.p2trUids);
  }

  // ---- Blocks with outpoints of their own ------------------------------------------------------------

  /** The outpoints of the first `n` outputs of a transaction. */
  ghost function Creates(tx: ScanTx, n: nat): (outs: set<OutPoint>)
    ensures forall o | o in outs :: o.vout < n
  {
    if n == 0 then {} else Creates(tx, n - 1) + {OutPoint(tx.txid, n - 1)}
  }

  /** Everything created by the first `n` transactions. */
  ghost function CreatedBy(txs: seq<ScanTx>, n: nat): set<OutPoint>
    requires n <= |txs|
  {
    if n == 0 then {} else CreatedBy(txs, n - 1) + Creates(txs[n - 1], |txs[n - 1].outputs|)
  }

  ghost function OutputTotal(txs: seq<ScanTx>, n: nat): nat
    requires n <= |txs|
  {
    if n == 0 then 0 else OutputTotal(txs, n - 1) + |txs[n - 1].outputs|
  }

  ghost predicate FreshTx(txs: seq<ScanTx>, t: nat, before: set<OutPoint>)
    requires t < |txs|
  {
    Creates(txs[t], |txs[t].outputs|) !! before + CreatedBy(txs, t)
  }

  /** No transaction creates an outpoint that exists already. */
  ghost predicate FreshTxs(txs: seq<ScanTx>, before: set<OutPoint>) {
    forall t | 0 <= t < |txs| :: FreshTx(txs, t, before)
  }

  ghost function ChainCreated(blocks: seq<seq<ScanTx>>, n: nat): set<OutPoint>
    requires n <= |blocks|
  {
    if n == 0 then {} else ChainCreated(blocks, n - 1) + CreatedBy(blocks[n - 1], |blocks[n - 1]|)
  }

  ghost function ChainOutputTotal(blocks: seq<seq<ScanTx>>, n: nat): nat
    requires n <= |blocks|
  {
    if n == 0 then 0 else ChainOutputTotal(blocks, n - 1) + OutputTotal(blocks[n - 1], |blocks[n - 1]|)
  }

  /** The outputs not spent after the first `n` transactions: each takes its inputs away, then adds its outputs. */
  ghost function UnspentBy(live: set<OutPoint>, txs: seq<ScanTx>, n: nat): set<OutPoint>
    requires n <= |txs|
  {
    if n == 0 then live
    else
      var tx := txs[n - 1];
      UnspentBy(live, txs, n - 1) - (if tx.isCoinbase then {} else InputSet(tx.inputs)) + Creates(tx, |tx.outputs|)
  }

  ghost function Unspent(blocks: seq<seq<ScanTx>>, n: nat): set<OutPoint>
    requires n <= |blocks|
  {
    if n == 0 then {} else UnspentBy(Unspent(blocks, n - 1), blocks[n - 1], |blocks[n - 1]|)
  }

  ghost predicate FreshBlock(blocks: seq<seq<ScanTx>>, i: nat)
    requires i < |blocks|
  {
    FreshTxs(blocks[i], ChainCreated(blocks, i))
  }

  lemma {:induction false} EmptyKeepsLaws()
    ensures Laws(Empty())
  {
    forall t: ScriptType
      ensures Balanced(Empty(), t)
    {
      assert LiveOf(map[], t) == {};
    }
  }

  /** Starting a block clears the per-block lists. */
  lemma {:induction false} ClearKeepsLaws(s: State)
    requires Laws(s)
    ensures Laws(s.(spentUids := [], p2trUids := []))
  {
    var r := s.(spentUids := [], p2trUids := []);
    forall t: ScriptType
      ensures Balanced(r, t)
    {
      assert Balanced(s, t);
    }
  }

  // ---- Properties that single steps keep ------------------------------------------------------------

  type Property = State -> bool

  ghost predicate KeptBySpend(inv: Property, s: State, txStart: nat, blockStart: nat, o: OutPoint) {
    inv(s) && s.lastId <= txStart ==> inv(SpendOne(s, txStart, blockStart, o))
  }

  ghost predicate KeptByCreate(inv: Property, s: State, o: OutPoint, t: ScriptType) {
    inv(s) && o !in s.utxo && s.lastId < MAX_ID ==> inv(CreateOne(s, o, t))
  }

  ghost predicate KeptByClear(inv: Property, s: State) {
    inv(s) ==> inv(s.(spentUids := [], p2trUids := []))
  }

  ghost predicate StepsKeep(inv: Property) {
    && (forall s, txStart, blockStart, o :: KeptBySpend(inv, s, txStart, blockStart, o))
    && (forall s, o, t :: KeptByCreate(inv, s, o, t))
    && (forall s :: KeptByClear(inv, s))
  }

  ghost predicate Means(inv: Property, s: State) {
    inv(s) == Laws(s)
  }

  lemma {:induction false} StepsKeepLaws(inv: Property)
    requires forall s :: Means(inv, s)
    ensures StepsKeep(inv) && inv(Empty())
  {
    EmptyKeepsLaws();
    assert Means(inv, Empty());
    forall s, txStart, blockStart, o
      ensures KeptBySpend(inv, s, txStart, blockStart, o)
    {
      assert Means(inv, s) && Means(inv, SpendOne(s, txStart, blockStart, o));
      if inv(s) && s.lastId <= txStart { SpendKeepsLaws(s, txStart, blockStart, o); }
    }
    forall s, o, t
      ensures KeptByCreate(inv, s, o, t)
    {
      assert Means(inv, s) && Means(inv, CreateOne(s, o, t));
      if inv(s) && o !in s.utxo && s.lastId < MAX_ID { CreateKeepsLaws(s, o, t); }
    }
    forall s
      ensures KeptByClear(inv, s)
    {
      assert Means(inv, s) && Means(inv, s.(spentUids := [], p2trUids := []));
      if inv(s) { ClearKeepsLaws(s); }
    }
  }

  // ---- What holds over a whole scan ------------------------------------------------------------

  /** Every input is either spent or missing, and what is spent leaves the live map. */
  lemma {:induction false} SpendAllEffect(s: State, txStart: nat, blockStart: nat, inputs: seq<OutPoint>, n: nat)
    requires n <= |inputs|
    ensures var r := SpendAll(s, txStart, blockStart, inputs, n);
            && r.lastId == s.lastId && r.outputs == s.outputs
            && r.spends + r.missing == s.spends + s.missing + n
            && r.utxo == s.utxo - InputSet(inputs[..n])
  {
    if n > 0 {
      SpendAllEffect(s, txStart, blockStart, inputs, n - 1);
      TakeNext(inputs, n);
      InputSetAppend(inputs[..n - 1], inputs[n - 1]);
    }
  }

  lemma {:induction false} SpendAllKeeps(inv: Property, s: State, txStart: nat, blockStart: nat, inputs: seq<OutPoint>,
                                         n: nat)
    requires StepsKeep(inv) && inv(s) && s.lastId <= txStart && n <= |inputs|
    ensures inv(SpendAll(s, txStart, blockStart, inputs, n))
  {
    if n > 0 {
      SpendAllKeeps(inv, s, txStart, blockStart, inputs, n - 1);
      SpendAllEffect(s, txStart, blockStart, inputs, n - 1);
      assert KeptBySpend(inv, SpendAll(s, txStart, blockStart, inputs, n - 1), txStart, blockStart, inputs[n - 1]);
    }
  }

  /** The outputs of a transaction get the next identifiers. */
  lemma {:induction false} CreateAllEffect(s: State, tx: ScanTx, n: nat)
    requires n <= |tx.outputs|
    ensures var r := CreateAll(s, tx, n);
            && r.lastId == s.lastId + n && r.outputs == s.outputs + n
            && r.spends == s.spends && r.missing == s.missing
            && r.utxo.Keys == s.utxo.Keys + Creates(tx, n)
  {
    if n > 0 { CreateAllEffect(s, tx, n - 1); }
  }

  /** The next outpoint of a transaction that creates only new ones is not live yet. */
  lemma {:induction false} NextIsNew(s: State, tx: ScanTx, n: nat)
    requires n < |tx.outputs| && Creates(tx, |tx.outputs|) !! s.utxo.Keys
    ensures var r := CreateAll(s, tx, n); OutPoint(tx.txid, n) !in r.utxo && r.lastId == s.lastId + n
  {
    CreateAllEffect(s, tx, n);
    CreatesGrow(tx, n, |tx.outputs|);
  }

  lemma {:induction false} CreateAllKeeps(inv: Property, s: State, tx: ScanTx, n: nat)
    requires StepsKeep(inv) && inv(s) && n <= |tx.outputs| && s.lastId + n <= MAX_ID
        && Creates(tx, |tx.outputs|) !! s.utxo.Keys
    ensures inv(CreateAll(s, tx, n))
  {
    if n > 0 {
      CreateAllKeeps(inv, s, tx, n - 1);
      NextIsNew(s, tx, n - 1);
      assert KeptByCreate(inv, CreateAll(s, tx, n - 1), OutPoint(tx.txid, n - 1), tx.outputs[n - 1]);
    }
  }

  lemma {:induction false} CreatesGrow(tx: ScanTx, v: nat, n: nat)
    requires v < n
    ensures OutPoint(tx.txid, v) in Creates(tx, n) && OutPoint(tx.txid, v) !in Creates(tx, v)
  {
    if v < n - 1 { CreatesGrow(tx, v, n - 1); }
  }

  /** The inputs a transaction looks up. */
  function LookedUp(tx: ScanTx): nat {
    if tx.isCoinbase then 0 else |tx.inputs|
  }

  lemma {:induction false} AfterTxEffect(s: State, tx: ScanTx, blockStart: nat)
    ensures var r := AfterTx(s, tx, blockStart);
            && r.lastId == s.lastId + |tx.outputs|
            && r.spends + r.missing == s.spends + s.missing + LookedUp(tx)
            && r.utxo.Keys
              == s.utxo.Keys - (if tx.isCoinbase then {} else InputSet(tx.inputs)) + Creates(tx, |tx.outputs|)
  {
    if tx.isCoinbase {
      CreateAllEffect(s, tx, |tx.outputs|);
      assert s.utxo.Keys - {} == s.utxo.Keys;
    } else {
      SpendAllEffect(s, s.lastId, blockStart, tx.inputs, |tx.inputs|);
      CreateAllEffect(SpendAll(s, s.lastId, blockStart, tx.inputs, |tx.inputs|), tx, |tx.outputs|);
      assert tx.inputs[..|tx.inputs|] == tx.inputs;
    }
  }

  lemma {:induction false} AfterTxKeeps(inv: Property, s: State, tx: ScanTx, blockStart: nat)
    requires StepsKeep(inv) && inv(s) && s.lastId + |tx.outputs| <= MAX_ID && Creates(tx, |tx.outputs|) !! s.utxo.Keys
    ensures inv(AfterTx(s, tx, blockStart))
  {
    if tx.isCoinbase {
      CreateAllKeeps(inv, s, tx, |tx.outputs|);
    } else {
      SpendAllEffect(s, s.lastId, blockStart, tx.inputs, |tx.inputs|);
      SpendAllKeeps(inv, s, s.lastId, blockStart, tx.inputs, |tx.inputs|);
      CreateAllKeeps(inv, SpendAll(s, s.lastId, blockStart, tx.inputs, |tx.inputs|), tx, |tx.outputs|);
    }
  }

  function LookedUpBy(txs: seq<ScanTx>, n: nat): nat
    requires n <= |txs|
  {
    if n == 0 then 0 else LookedUpBy(txs, n - 1) + LookedUp(txs[n - 1])
  }

  lemma {:induction false} AfterTxsEffect(s: State, txs: seq<ScanTx>, blockStart: nat, n: nat)
    requires n <= |txs|
    ensures var r := AfterTxs(s, txs, blockStart, n);
            && r.lastId == s.lastId + OutputTotal(txs, n)
            && r.spends + r.missing == s.spends + s.missing + LookedUpBy(txs, n)
            && r.utxo.Keys == UnspentBy(s.utxo.Keys, txs, n) <= s.utxo.Keys + CreatedBy(txs, n)
  {
    if n > 0 {
      AfterTxsEffect(s, txs, blockStart, n - 1);
      AfterTxEffect(AfterTxs(s, txs, blockStart, n - 1), txs[n - 1], blockStart);
    }
  }

  lemma {:induction false} AfterTxsKeep(inv: Property, s: State, txs: seq<ScanTx>, blockStart: nat, n: nat,
                                        before: set<OutPoint>)
    requires StepsKeep(inv) && inv(s) && n <= |txs| && s.utxo.Keys <= before && FreshTxs(txs, before)
    requires s.lastId + OutputTotal(txs, |txs|) <= MAX_ID
    ensures inv(AfterTxs(s, txs, blockStart, n))
  {
    if n > 0 {
      AfterTxsKeep(inv, s, txs, blockStart, n - 1, before);
      AfterTxsEffect(s, txs, blockStart, n - 1);
      assert FreshTx(txs, n - 1, before);
      TotalGrows(txs, n, |txs|);
      AfterTxKeeps(inv, AfterTxs(s, txs, blockStart, n - 1), txs[n - 1], blockStart);
    }
  }

  lemma {:induction false} TotalGrows(txs: seq<ScanTx>, m: nat, n: nat)
    requires m <= n <= |txs|
    ensures OutputTotal(txs, m) <= OutputTotal(txs, n)
  {
    if m < n { TotalGrows(txs, m, n - 1); }
  }

  ghost function ChainLookedUp(blocks: seq<seq<ScanTx>>, n: nat): nat
    requires n <= |blocks|
  {
    if n == 0 then 0 else ChainLookedUp(blocks, n - 1) + LookedUpBy(blocks[n - 1], |blocks[n - 1]|)
  }

  /**
   * After any blocks: one identifier per output, one spend or one miss per input looked up, and
   * exactly the unspent outputs live.
   */
  lemma {:induction false} ScanCounts(blocks: seq<seq<ScanTx>>, n: nat)
    requires n <= |blocks|
    ensures var s := AfterBlocks(blocks, n);
            && s.lastId == ChainOutputTotal(blocks, n)
            && s.spends + s.missing == ChainLookedUp(blocks, n)
            && s.utxo.Keys == Unspent(blocks, n) <= ChainCreated(blocks, n)
  {
    if n > 0 {
      ScanCounts(blocks, n - 1);
      var s := AfterBlocks(blocks, n - 1);
      AfterTxsEffect(s.(spentUids := [], p2trUids := []), blocks[n - 1], s.lastId, |blocks[n - 1]|);
    }
  }

  /** No outpoint is created twice and the identifiers fit 60 bits. */
  ghost predicate Scannable(blocks: seq<seq<ScanTx>>) {
    ChainOutputTotal(blocks, |blocks|) <= MAX_ID && forall i | 0 <= i < |blocks| :: FreshBlock(blocks, i)
  }

  lemma {:induction false} ChainTotalGrows(blocks: seq<seq<ScanTx>>, m: nat, n: nat)
    requires m <= n <= |blocks|
    ensures ChainOutputTotal(blocks, m) <= ChainOutputTotal(blocks, n)
  {
    if m < n { ChainTotalGrows(blocks, m, n - 1); }
  }

  /** What the empty state has and single steps keep holds after every block of a scannable chain. */
  lemma {:induction false} ScanKeeps(inv: Property, blocks: seq<seq<ScanTx>>, n: nat)
    requires StepsKeep(inv) && inv(Empty()) && Scannable(blocks) && n <= |blocks|
    ensures inv(AfterBlocks(blocks, n))
  {
    if n > 0 {
      ScanKeeps(inv, blocks, n - 1);
      ScanCounts(blocks, n - 1);
      ChainTotalGrows(blocks, n, |blocks|);
      assert FreshBlock(blocks, n - 1);
      var s, txs := AfterBlocks(blocks, n - 1), blocks[n - 1];
      assert KeptByClear(inv, s);
      AfterTxsKeep(inv, s.(spentUids := [], p2trUids := []), txs, s.lastId, |txs|, ChainCreated(blocks, n - 1));
    }
  }

  /**
   * After every block of a scannable chain outputs are spends plus live entries, in total and by
   * type, live identifiers are distinct and in range, and no spend was counted as in its own transaction.
   */
  lemma {:induction false} ScanKeepsLaws(blocks: seq<seq<ScanTx>>, n: nat)
    requires Scannable(blocks) && n <= |blocks|
    ensures Laws(AfterBlocks(blocks, n))
  {
    var inv: Property := s => Laws(s);
    assert forall s :: Means(inv, s);
    StepsKeepLaws(inv);
    ScanKeeps(inv, blocks, n);
  }

  // ---- The measurement of every block ------------------------------------------------------------

  /** The measurement of these UIDs against this anchor does not fail. */
  ghost predicate Measurable(uids: seq<nat>, anchor: nat) {
    uids == [] || (SpentIds.Distinct(uids) && SpentIds.Sorted(uids)[0] <= anchor)
  }

  lemma {:induction false} SpentUidsMeasurable(s: State, uids: seq<nat>)
    requires UidsSpent(s, uids)
    ensures Measurable(uids, s.lastId)
  {
    if uids != [] {
      SpentIds.SortedIsSorted(uids);
      var sorted := SpentIds.Sorted(uids);
      assert sorted[0] in multiset(sorted);
      assert sorted[0] in uids;
    }
  }

  ghost predicate BlockMeasurable(s: State) {
    Measurable(s.spentUids, s.lastId) && Measurable(s.p2trUids, s.lastId)
  }

  /** Neither measurement fails after any of the first `n` blocks. */
  ghost predicate MeasurableUpTo(blocks: seq<seq<ScanTx>>, n: nat)
    requires n <= |blocks|
  {
    forall i | 0 <= i < n :: MeasurableAt(blocks, i)
  }

  ghost predicate MeasurableAt(blocks: seq<seq<ScanTx>>, i: nat)
    requires i < |blocks|
  {
    BlockMeasurable(AfterBlocks(blocks, i + 1))
  }

  /** Neither the duplicate check nor the anchor subtraction ever fails on a scannable chain. */
  lemma {:induction false} ScannableIsMeasurable(blocks: seq<seq<ScanTx>>)
    requires Scannable(blocks)
    ensures MeasurableUpTo(blocks, |blocks|)
  {
    forall i | 0 <= i < |blocks|
      ensures MeasurableAt(blocks, i)
    {
      ScanKeepsLaws(blocks, i + 1);
      var s := AfterBlocks(blocks, i + 1);
      SpentUidsMeasurable(s, s.spentUids);
      SpentUidsMeasurable(s, s.p2trUids);
    }
  }

  /** The charges after one more list of spent UIDs. */
  ghost function WithUids(charges: seq<seq<Charge>>, uids: seq<nat>, anchor: nat): seq<seq<Charge>>
    requires Measurable(uids, anchor)
  {
    if uids == [] then charges
    else
      SpentIds.SortedAscendingIffDistinct(uids);
      charges + [BlockCharges(SpentIds.Sorted(uids), anchor)]
  }

  /** What the first `n` blocks are charged, for all spends or for P2TR spends only. */
  ghost function ScanCharges(blocks: seq<seq<ScanTx>>, n: nat, p2trOnly: bool): seq<seq<Charge>>
    requires n <= |blocks| && MeasurableUpTo(blocks, n)
  {
    if n == 0 then []
    else
      assert MeasurableAt(blocks, n - 1);
      var s := AfterBlocks(blocks, n);
      WithUids(ScanCharges(blocks, n - 1, p2trOnly), if p2trOnly then s.p2trUids else s.spentUids, s.lastId)
  }

  // ---- The commit loop as the program runs it ------------------------------------------------------------

  method SpendInput(s: State, o: OutPoint, txStart: nat, blockStart: nat) returns (r: State)
    ensures r == SpendOne(s, txStart, blockStart, o)
  {
    if o !in s.utxo {
      return s.(missing := s.missing + 1);
    }
    var Entry(id, t) := s.utxo[o];
    r := s.(utxo := s.utxo - {o}, spends := s.spends + 1);
    if id > txStart {
      r := r.(sameTx := r.sameTx + 1);
    } else if id > blockStart {
      r := r.(sameBlock := r.sameBlock + 1);
    }
    r := r.(inputsBy := Bump(r.inputsBy, t),
            spentUids := r.spentUids + [id],
            p2trUids := r.p2trUids + (if t == P2tr then [id] else []));
  }

  method CreateOutput(s: State, o: OutPoint, t: ScriptType) returns (r: State)
    ensures r == CreateOne(s, o, t)
  {
    r := s.(lastId := s.lastId + 1, outputs := s.outputs + 1, outputsBy := Bump(s.outputsBy, t));
    r := r.(utxo := r.utxo[o := Stored(r.lastId, t)]);
  }

  method CommitTx(s: State, tx: ScanTx, blockStart: nat) returns (r: State)
    ensures r == AfterTx(s, tx, blockStart)
  {
    r := s;
    var txStart := s.lastId;
    if !tx.isCoinbase {
      for i := 0 to |tx.inputs|
        invariant r == SpendAll(s, txStart, blockStart, tx.inputs, i)
      {
        r := SpendInput(r, tx.inputs[i], txStart, blockStart);
      }
    }
    ghost var mid := r;
    for v := 0 to |tx.outputs|
      invariant r == CreateAll(mid, tx, v)
    {
      r := CreateOutput(r, OutPoint(tx.txid, v), tx.outputs[v]);
    }
  }

  method CommitBlock(s: State, txs: seq<ScanTx>) returns (r: State)
    ensures r == AfterBlock(s, txs)
  {
    var blockStart := s.lastId;
    ghost var cleared := s.(spentUids := [], p2trUids := []);
    r := s.(spentUids := [], p2trUids := []);
    for i := 0 to |txs|
      invariant r == AfterTxs(cleared, txs, blockStart, i)
    {
      r := CommitTx(r, txs[i], blockStart);
    }
  }

  /** Two sets of statistics share nothing. */
  ghost predicate Apart(a: SortedUidCodecStats, b: SortedUidCodecStats) {
    a != b && a.combined != b.combined && a.combined.riceBits != b.combined.riceBits
  }

  /** Measures the spent UIDs of a block, then those of its P2TR spends; fails when either does. */
  method MeasureBlock(s: State, all: SortedUidCodecStats, p2tr: SortedUidCodecStats,
                      ghost allCharges: seq<seq<Charge>>, ghost p2trCharges: seq<seq<Charge>>)
    returns (r: Result<(), MeasureError>)
    requires all.Holds(allCharges) && p2tr.Holds(p2trCharges) && Apart(all, p2tr)
    modifies all, all.combined, all.combined.riceBits, p2tr, p2tr.combined, p2tr.combined.riceBits
    ensures r.Ok? <==> BlockMeasurable(s)
    ensures r.Ok? ==>
              && all.Holds(WithUids(allCharges, s.spentUids, s.lastId))
              && p2tr.Holds(WithUids(p2trCharges, s.p2trUids, s.lastId))
  {
    r := all.MeasureSortedUidStream(s.spentUids, s.lastId, allCharges);
    if r.Ok? {
      r := p2tr.MeasureSortedUidStream(s.p2trUids, s.lastId, p2trCharges);
    }
  }

  /** The statistics describe the first `n` blocks. */
  ghost predicate Describe(blocks: seq<seq<ScanTx>>, n: nat, all: SortedUidCodecStats, p2tr: SortedUidCodecStats)
    requires n <= |blocks|
    reads all, all.combined, all.combined.riceBits, p2tr, p2tr.combined, p2tr.combined.riceBits
  {
    && MeasurableUpTo(blocks, n)
    && all.Holds(ScanCharges(blocks, n, false)) && p2tr.Holds(ScanCharges(blocks, n, true))
  }

  ghost predicate StateAt(blocks: seq<seq<ScanTx>>, s: State, i: nat) {
    i <= |blocks| && s == AfterBlocks(blocks, i)
  }

  /** The states after zero, one, two, ... blocks. */
  ghost predicate StatesOf(blocks: seq<seq<ScanTx>>, states: seq<State>) {
    states != [] && forall i | 0 <= i < |states| :: StateAt(blocks, states[i], i)
  }

  lemma {:induction false} StatesGrow(blocks: seq<seq<ScanTx>>, states: seq<State>, s: State)
    requires StatesOf(blocks, states) && StateAt(blocks, s, |states|)
    ensures StatesOf(blocks, states + [s])
  {
    var more := states + [s];
    forall i | 0 <= i < |more|
      ensures StateAt(blocks, more[i], i)
    {
      if i < |states| {
        assert StateAt(blocks, states[i], i);
      }
    }
  }

  /** Commits and measures the next block. */
  method ScanNext(blocks: seq<seq<ScanTx>>, n: nat, s: State, all: SortedUidCodecStats, p2tr: SortedUidCodecStats)
    returns (next: State, r: Result<(), MeasureError>)
    requires n < |blocks| && StateAt(blocks, s, n) && Describe(blocks, n, all, p2tr) && Apart(all, p2tr)
    modifies all, all.combined, all.combined.riceBits, p2tr, p2tr.combined, p2tr.combined.riceBits
    ensures StateAt(blocks, next, n + 1)
    ensures r.Err? ==> !MeasurableUpTo(blocks, |blocks|) && !Scannable(blocks)
    ensures r.Ok? ==> Describe(blocks, n + 1, all, p2tr)
  {
    next := CommitBlock(s, blocks[n]);
    ghost var allCharges, p2trCharges := ScanCharges(blocks, n, false), ScanCharges(blocks, n, true);
    r := MeasureBlock(next, all, p2tr, allCharges, p2trCharges);
    NextMeasured(blocks, n, next, allCharges, p2trCharges);
  }

  lemma {:induction false} NextMeasured(blocks: seq<seq<ScanTx>>, n: nat, next: State, allCharges: seq<seq<Charge>>,
                                        p2trCharges: seq<seq<Charge>>)
    requires n < |blocks| && next == AfterBlocks(blocks, n + 1) && MeasurableUpTo(blocks, n)
    requires allCharges == ScanCharges(blocks, n, false) && p2trCharges == ScanCharges(blocks, n, true)
    ensures !BlockMeasurable(next) ==> !MeasurableUpTo(blocks, |blocks|) && !Scannable(blocks)
    ensures BlockMeasurable(next) ==>
      && MeasurableUpTo(blocks, n + 1)
      && ScanCharges(blocks, n + 1, false) == WithUids(allCharges, next.spentUids, next.lastId)
      && ScanCharges(blocks, n + 1, true) == WithUids(p2trCharges, next.p2trUids, next.lastId)
  {
    assert MeasurableAt(blocks, n) <==> BlockMeasurable(next);
    if Scannable(blocks) { ScannableIsMeasurable(blocks); }
  }

  /** The cost of the charged blocks with one parameter per block. */
  ghost function PerBlockCost(charges: seq<seq<Charge>>): nat {
    SumOfBest(charges) + RICE_K_OVERHEAD * |charges|
  }

  /** The totals the statistics hold after the first `n` blocks. */
  method ReportCosts(blocks: seq<seq<ScanTx>>, ghost n: nat, all: SortedUidCodecStats, p2tr: SortedUidCodecStats)
    returns (costs: (nat, nat))
    requires n <= |blocks| && Describe(blocks, n, all, p2tr)
    ensures costs == ScanCosts(blocks, n)
  {
    costs := (all.perBlockBits, p2tr.perBlockBits);
  }

  ghost function ScanCosts(blocks: seq<seq<ScanTx>>, n: nat): (nat, nat)
    requires n <= |blocks| && MeasurableUpTo(blocks, n)
  {
    (PerBlockCost(ScanCharges(blocks, n, false)), PerBlockCost(ScanCharges(blocks, n, true)))
  }

  /**
   * Scans blocks from the empty state. It fails exactly when some measurement does, which never
   * happens when no outpoint is created twice and the identifiers fit 60 bits.
   */
  method Scan(blocks: seq<seq<ScanTx>>) returns (states: seq<State>, r: Result<(nat, nat), MeasureError>)
    ensures StatesOf(blocks, states)
    ensures r.Ok? <==> MeasurableUpTo(blocks, |blocks|)
    ensures Scannable(blocks) ==> r.Ok?
    ensures r.Ok? ==> |states| == |blocks| + 1
    ensures r.Ok? ==> r.value == ScanCosts(blocks, |blocks|)
  {
    var state := Empty();
    states := [state];
    assert StateAt(blocks, state, 0);
    var all := new SortedUidCodecStats();
    var p2tr := new SortedUidCodecStats();
    for i := 0 to |blocks|
      invariant fresh(all) && fresh(all.combined) && fresh(all.combined.riceBits)
      invariant fresh(p2tr) && fresh(p2tr.combined) && fresh(p2tr.combined.riceBits)
      invariant Apart(all, p2tr) && Describe(blocks, i, all, p2tr)
      invariant |states| == i + 1 && StateAt(blocks, state, i) && StatesOf(blocks, states)
    {
      var next, measured := ScanNext(blocks, i, state, all, p2tr);
      if measured.Err? {
        return states, Err(measured.error);
      }
      StatesGrow(blocks, states, next);
      state := next;
      states := states + [state];
    }
    var costs := ReportCosts(blocks, |blocks|, all, p2tr);
    r := Ok(costs);
  }
}
