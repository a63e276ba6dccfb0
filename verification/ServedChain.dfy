/** What a client reads from any durable state, said in terms of the chain alone. */
module ServedChain {
  import opened Wrappers
  import opened Words
  import opened HashPacking
  import opened TxBitmap
  import opened LightBlock
  import opened Filtering
  import opened Chain
  import opened Indexer
  import opened BlockEffect
  import opened NativeOutputs
  import opened Ledger
  import opened Storage
  import opened Recovery
  import opened Assembly
  import opened StoredGroups
  import opened ServedArchive
  import Serving

  // ---- The indexed keys of a block ---------------------------------------------------------------

  function IndexedKeys(natives: seq<Native>): seq<Key> {
    if natives == [] then []
    else
      var last := natives[|natives| - 1];
      IndexedKeys(natives[..|natives| - 1]) + (if last.indexed && last.key.Some? then [last.key.value] else [])
  }

  lemma {:induction false} IndexedKeysConcat(a: seq<Native>, b: seq<Native>)
    ensures IndexedKeys(a + b) == IndexedKeys(a) + IndexedKeys(b)
  {
    if b == [] {
      assert a + b == a;
    } else {
      var front, last := b[..|b| - 1], b[|b| - 1];
      IndexedKeysConcat(a, front);
      assert (a + b)[..|a + b| - 1] == a + front && (a + b)[|a + b| - 1] == last;
    }
  }

  /** The `k`-th indexed key is that of the `k`-th dense slot. */
  lemma {:induction false} IndexedKeysAre(natives: seq<Native>)
    requires Keyed(natives)
    ensures |IndexedKeys(natives)| == |SlotsWhere(natives, true)|
    ensures forall k | 0 <= k < |IndexedKeys(natives)| ::
        Some(IndexedKeys(natives)[k]) == natives[SlotsWhere(natives, true)[k]].key
  {
    if natives != [] {
      var front, last := natives[..|natives| - 1], natives[|natives| - 1];
      forall p | 0 <= p < |front|
        ensures front[p].key.Some?
      {
        assert natives[p].key.Some?;
      }
      IndexedKeysAre(front);
      SlotsWhereAppend(front, last, true);
      assert natives == front + [last];
    }
  }

  function TxKeys(tx: Tx): seq<Key> {
    IndexedKeys(TxNatives(tx, |tx.outputs|))
  }

  /** A block stores the keys of its indexed native outputs, in chain order. */
  lemma {:induction false} StoredKeys(m: Memory, b: Block, next: Memory, a: Applied)
    requires NumbersNatives(m, b, next, a) && Keyed(BlockNatives(b))
    ensures OutputKeys(a.stored.outputs) == IndexedKeys(BlockNatives(b))
  {
    IndexedKeysAre(BlockNatives(b));
  }

  // ---- What a client should read --------------------------------------------------------------------

  /** The keys that are not omitted; `base` is the index of the first one in its block. */
  function KeptKeys(keys: seq<Key>, base: nat, omit: nat -> bool): seq<Key> {
    if keys == [] then []
    else
      var last := |keys| - 1;
      KeptKeys(keys[..last], base, omit) + (if omit(base + last) then [] else [keys[last]])
  }

  function KeyHashes(hash: Hasher, keys: seq<Key>, bits: nat): (fields: seq<seq<bool>>)
    requires bits < 256
    ensures |fields| == |keys|
  {
    seq(|keys|, j requires 0 <= j < |keys| => Unpack(hash(keys[j]))[..bits])
  }

  /**
   * For each of the first `n` transactions with an indexed output that is not omitted: its position,
   * its tweak and the truncated hashes of those outputs.
   */
  function ClientGroups(hash: Hasher, txs: seq<Tx>, bits: nat, omit: nat -> bool, n: nat): seq<Served>
    requires n <= |txs| && bits < 256
  {
    if n == 0 then []
    else
      var tx := txs[n - 1];
      var keys := KeptKeys(TxKeys(tx), |IndexedKeys(Natives(txs, n - 1))|, omit);
      ClientGroups(hash, txs, bits, omit, n - 1)
      + (if keys == [] || tx.tweak.None? then [] else [Served(n - 1, tx.tweak.value, KeyHashes(hash, keys, bits))])
  }

  // ---- From the stored groups ---------------------------------------------------------------------------

  ghost predicate Omits(s: StoredBlock, f: Filter, omit: nat -> bool) {
    forall k | 0 <= k < |s.outputs| :: OmitsAt(s, f, omit, k)
  }

  ghost predicate OmitsAt(s: StoredBlock, f: Filter, omit: nat -> bool, k: nat)
    requires k < |s.outputs|
  {
    omit(k) == OmitOutput(s.height, s.outputs[k], f)
  }

  lemma {:induction false} KeepIsKept(s: StoredBlock, f: Filter, omit: nat -> bool, lo: nat, hi: nat)
    requires lo <= hi <= |s.outputs| && Omits(s, f, omit)
    ensures OutputKeys(Keep(s.outputs, lo, hi, s.height, f)) == KeptKeys(OutputKeys(s.outputs)[lo..hi], lo, omit)
  {
    if lo < hi {
      KeepIsKept(s, f, omit, lo, hi - 1);
      var all, front := OutputKeys(s.outputs), Keep(s.outputs, lo, hi - 1, s.height, f);
      assert all[lo..hi][..hi - 1 - lo] == all[lo..hi - 1];
      assert OmitsAt(s, f, omit, hi - 1);
      assert OutputKeys(front + [s.outputs[hi - 1]]) == OutputKeys(front) + [s.outputs[hi - 1].key];
    }
  }

  lemma {:induction false} GroupsPrefix(txs: seq<Tx>, m: nat, n: nat)
    requires m <= n <= |txs|
    ensures GroupTxs(txs, m) <= GroupTxs(txs, n) && GroupEntries(txs, m) <= GroupEntries(txs, n)
  {
    if m < n { GroupsPrefix(txs, m, n - 1); }
  }

  /** A transaction with an indexed output has a tweak. */
  lemma {:induction false} IndexedHasTweak(tx: Tx, n: nat)
    requires n <= |tx.outputs| && SlotsWhere(TxNatives(tx, n), true) != []
    ensures tx.tweak.Some?
  {
    var k := SlotsWhere(TxNatives(tx, n), true)[0];
    NativeHasTweak(tx, n, k);
  }

  lemma {:induction false} NativeHasTweak(tx: Tx, n: nat, k: nat)
    requires n <= |tx.outputs| && k < |TxNatives(tx, n)| && TxNatives(tx, n)[k].indexed
    ensures tx.tweak.Some?
  {
    if k < |TxNatives(tx, n - 1)| { NativeHasTweak(tx, n - 1, k); }
  }

  /** The stored block of `b`: its groups are the block's, and its keys are the indexed ones. */
  ghost predicate StoresBlock(b: Block, s: StoredBlock) {
    && StoresGroups(b, s) && Keyed(BlockNatives(b))
    && OutputKeys(s.outputs) == IndexedKeys(BlockNatives(b))
  }

  /** The `n`-th transaction's keys are the block's at their place. */
  lemma {:induction false} KeysInBlock(txs: seq<Tx>, n: nat)
    requires 0 < n <= |txs|
    ensures IndexedKeys(Natives(txs, n)) == IndexedKeys(Natives(txs, n - 1)) + TxKeys(txs[n - 1])
    ensures IndexedKeys(Natives(txs, n)) <= IndexedKeys(Natives(txs, |txs|))
  {
    IndexedKeysConcat(Natives(txs, n - 1), TxNatives(txs[n - 1], |txs[n - 1].outputs|));
    NativesPrefix(txs, n, |txs|);
    var all := Natives(txs, |txs|);
    IndexedKeysConcat(Natives(txs, n), all[|Natives(txs, n)|..]);
    assert all == Natives(txs, n) + all[|Natives(txs, n)|..];
  }

  /** The groups of the first `n` transactions end where their keys do. */
  ghost predicate GroupsAlign(s: StoredBlock, txs: seq<Tx>, n: nat)
    requires n <= |txs|
  {
    var g := |GroupTxs(txs, n)|;
    && g == |GroupEntries(txs, n)| <= |s.tweaks|
    && OutputsBefore(s.tweaks, g) == |IndexedKeys(Natives(txs, n))|
  }

  /** The next transaction either has no stored output or is the next group. */
  lemma {:induction false} NextGroup(b: Block, s: StoredBlock, n: nat)
    requires StoresBlock(b, s) && 0 < n <= |b.txs| && GroupsAlign(s, b.txs, n - 1)
    ensures GroupsAlign(s, b.txs, n)
    ensures var tx, g := b.txs[n - 1], |GroupTxs(b.txs, n - 1)|;
            if TxKeys(tx) == [] then |GroupTxs(b.txs, n)| == g
            else
              && |GroupTxs(b.txs, n)| == g + 1 && tx.tweak.Some?
              && s.tweaks[g] == TweakEntry(|TxKeys(tx)|, tx.tweak.value)
              && g < |Unskipped(s.skippedTxs, s.txCount)| && Unskipped(s.skippedTxs, s.txCount)[g] == n - 1
  {
    var tx := b.txs[n - 1];
    TxKeyed(b.txs, n);
    IndexedKeysAre(TxNatives(tx, |tx.outputs|));
    KeysInBlock(b.txs, n);
    GroupsPrefix(b.txs, n, |b.txs|);
    if TxKeys(tx) != [] { IndexedHasTweak(tx, |tx.outputs|); }
  }

  /** The next group, filtered, is what the client should read of the next transaction. */
  lemma {:induction false} NextServed(hash: Hasher, b: Block, s: StoredBlock, f: Filter, omit: nat -> bool, bits: nat,
                                      n: nat)
    requires StoresBlock(b, s) && Omits(s, f, omit) && bits < 256 && 0 < n <= |b.txs| && GroupsAlign(s, b.txs, n - 1)
    requires GroupedUpTo(s, |GroupTxs(b.txs, n - 1)| + 1) && TxKeys(b.txs[n - 1]) != []
    ensures var tx, g := b.txs[n - 1], KeptGroup(s, f, |GroupTxs(b.txs, n - 1)|);
            var keys := KeptKeys(TxKeys(tx), |IndexedKeys(Natives(b.txs, n - 1))|, omit);
            && (g.outputs == [] <==> keys == [])
            && tx.tweak.Some? && ServeGroup(hash, g, bits) == Served(n - 1, tx.tweak.value, KeyHashes(hash, keys, bits))
  {
    var tx, i := b.txs[n - 1], |GroupTxs(b.txs, n - 1)|;
    var lo := OutputsBefore(s.tweaks, i);
    NextGroup(b, s, n);
    KeysInBlock(b.txs, n);
    var hi := lo + |TxKeys(tx)|;
    assert hi == OutputsBefore(s.tweaks, i + 1);
    KeepIsKept(s, f, omit, lo, hi);
    KeysAtPlace(OutputKeys(s.outputs), IndexedKeys(Natives(b.txs, n - 1)), TxKeys(tx), lo, hi);
    ServedKeys(hash, KeptGroup(s, f, i), bits);
  }

  lemma {:induction false} KeysAtPlace(all: seq<Key>, before: seq<Key>, own: seq<Key>, lo: nat, hi: nat)
    requires before + own <= all && lo == |before| && hi == lo + |own|
    ensures hi <= |all| && all[lo..hi] == own
  {
    assert (before + own)[lo..hi] == own;
    assert all[..hi] == before + own;
    assert all[lo..hi] == all[..hi][lo..hi];
  }

  lemma {:induction false} ServedKeys(hash: Hasher, g: Group, bits: nat)
    requires bits < 256
    ensures ServeGroup(hash, g, bits) == Served(g.tx, g.tweak, KeyHashes(hash, OutputKeys(g.outputs), bits))
  {
    assert ServeGroup(hash, g, bits).fields == KeyHashes(hash, OutputKeys(g.outputs), bits);
  }

  lemma {:induction false} ServeAppend(hash: Hasher, groups: seq<Group>, g: Group, bits: nat)
    requires bits < 256
    ensures ServeGroups(hash, groups + [g], bits) == ServeGroups(hash, groups, bits) + [ServeGroup(hash, g, bits)]
  {
  }

  /** The kept groups of the first `n` transactions are what the client should read of them. */
  ghost predicate ServedUpTo(hash: Hasher, b: Block, s: StoredBlock, f: Filter, omit: nat -> bool, bits: nat, n: nat)
    requires bits < 256 && n <= |b.txs|
  {
    var g := |GroupTxs(b.txs, n)|;
    && GroupsAlign(s, b.txs, n) && GroupedUpTo(s, g)
    && ServeGroups(hash, KeptGroups(s, f, g), bits) == ClientGroups(hash, b.txs, bits, omit, n)
  }

  lemma {:induction false} AlignedIsGrouped(s: StoredBlock, g: nat)
    requires Grouped(s) && g <= |s.tweaks|
    ensures GroupedUpTo(s, g)
  {
    OutputsBeforeMonotone(s.tweaks, g, |s.tweaks|);
  }

  lemma {:induction false} ServedNext(hash: Hasher, b: Block, s: StoredBlock, f: Filter, omit: nat -> bool, bits: nat,
                                      n: nat)
    requires StoresBlock(b, s) && Grouped(s) && Omits(s, f, omit) && bits < 256 && 0 < n <= |b.txs|
    requires ServedUpTo(hash, b, s, f, omit, bits, n - 1)
    ensures ServedUpTo(hash, b, s, f, omit, bits, n)
  {
    NextGroup(b, s, n);
    AlignedIsGrouped(s, |GroupTxs(b.txs, n)|);
    if TxKeys(b.txs[n - 1]) != [] {
      var i := |GroupTxs(b.txs, n - 1)|;
      NextServed(hash, b, s, f, omit, bits, n);
      ServeAppend(hash, KeptGroups(s, f, i), KeptGroup(s, f, i), bits);
      AppendNothing(KeptGroups(s, f, i));
    }
  }

  lemma {:induction false} AppendNothing(groups: seq<Group>)
    ensures groups + [] == groups
  {
  }

  /** Serving the kept groups of a stored block gives what the client should read of it. */
  lemma {:induction false} ServedGroupsAre(hash: Hasher, b: Block, s: StoredBlock, f: Filter, omit: nat -> bool,
                                           bits: nat, n: nat)
    requires StoresBlock(b, s) && Grouped(s) && Omits(s, f, omit) && bits < 256 && n <= |b.txs|
    ensures ServedUpTo(hash, b, s, f, omit, bits, n)
  {
    if n == 0 {
      AlignedIsGrouped(s, 0);
    } else {
      ServedGroupsAre(hash, b, s, f, omit, bits, n - 1);
      ServedNext(hash, b, s, f, omit, bits, n);
    }
  }

  // ---- The archived file of a committed block -----------------------------------------------------------------

  lemma {:induction false} NoGroupIsEmpty(txs: seq<Tx>, n: nat)
    requires n <= |txs|
    ensures NoEmptyGroup(GroupEntries(txs, n))
  {
    if n > 0 { NoGroupIsEmpty(txs, n - 1); }
  }

  /** What the reference stores for a well-formed block. */
  ghost predicate StoredWhole(hash: Hasher, b: Block, s: StoredBlock) {
    StoresBlock(b, s) && HashesOfKeys(hash, s) && NoEmptyGroup(s.tweaks) && NoneReused(s.outputs)
  }

  lemma {:induction false} StepStoresBlock(apply: Apply, hash: Hasher, chain: seq<Block>, i: nat)
    requires Implements(apply, hash) && Laws(apply) && Runs(apply, chain, i + 1) && WellFormed(chain[i])
    ensures StoredWhole(hash, chain[i], Step(apply, chain, i).stored)
  {
    var m, b := Run(apply, chain, i).value, chain[i];
    assert AppliesAt(apply, hash, m, b);
    RunUntracked(apply, chain, i);
    BlockStaysUntracked(hash, m, b);
    BlockStoresGroups(hash, m, b);
    NoGroupIsEmpty(b.txs, |b.txs|);
    StepNumbersNatives(apply, chain, i);
    StoredKeys(m, b, Run(apply, chain, i + 1).value, Step(apply, chain, i));
    AppliedHashes(hash, m, b);
  }

  lemma {:induction false} AppliedHashes(hash: Hasher, m: Memory, b: Block)
    requires ApplyBlock(hash, m, b).Ok?
    ensures HashesOfKeys(hash, ApplyBlock(hash, m, b).value.1.stored)
  {
    var s := ApplyTxs(ScanStart(m, b), FirstUid(m.lastUid), b, |b.txs|).value;
    AssembledHashes(hash, b, FirstUid(m.lastUid), s.draft.parts, s.bitmap);
  }

  /** Setting spent heights changes none of it. */
  lemma {:induction false} MarksKeepWhole(hash: Hasher, b: Block, s: StoredBlock, outputs: seq<StoredOutput>)
    requires StoredWhole(hash, b, s) && |outputs| == |s.outputs|
    requires forall k | 0 <= k < |outputs| :: outputs[k] == s.outputs[k].(spentHeight := outputs[k].spentHeight)
    ensures StoredWhole(hash, b, s.(outputs := outputs))
  {
    assert OutputKeys(outputs) == OutputKeys(s.outputs);
  }

  /** The outputs of block `i` that a filter omits: those the chain spends by its tip, if the block is in range. */
  ghost function Spent(apply: Apply, chain: seq<Block>, start: nat, i: nat, f: Filter): nat -> bool
    requires Runs(apply, chain, i + 1)
  {
    var created := Step(apply, chain, i).created;
    (k: nat) =>
      && f.cutStart.Some? && f.cutTip.Some? && start + i >= f.cutStart.value
      && k < |created| && SpentBy(chain, start, created[k].outpoint, f.cutTip.value)
  }

  lemma {:induction false} FileOmits(apply: Apply, chain: seq<Block>, start: nat, n: nat, i: nat, file: StoredBlock,
                                     f: Filter)
    requires Laws(apply) && ValidChain(chain, start) && Runs(apply, chain, n) && i < n
        && FileHolds(apply, chain, start, n, i, file)
    requires NoneReused(file.outputs) && TipWithin(f, start + n)
    ensures Omits(file, f, Spent(apply, chain, start, i, f))
  {
    StepChangesLive(apply, chain, start, i);
    assert ValidAt(chain, start, i);
    forall k | 0 <= k < |file.outputs|
      ensures OmitsAt(file, f, Spent(apply, chain, start, i, f), k)
    {
      if f.cutStart.Some? {
        FileMarksAreTrue(apply, chain, start, n, i, file, k, f.cutTip.value);
      }
    }
  }

  lemma {:induction false} FileStoresBlock(apply: Apply, hash: Hasher, chain: seq<Block>, start: nat, n: nat, i: nat,
                                           file: StoredBlock)
    requires Implements(apply, hash) && Laws(apply) && Runs(apply, chain, n) && i < n && WellFormed(chain[i])
    requires FileHolds(apply, chain, start, n, i, file)
    ensures StoredWhole(hash, chain[i], file)
  {
    var made := Step(apply, chain, i).stored;
    StepStoresBlock(apply, hash, chain, i);
    forall k | 0 <= k < |file.outputs|
      ensures file.outputs[k] == made.outputs[k].(spentHeight := file.outputs[k].spentHeight)
    {
      assert OutputHolds(chain, start, n, Step(apply, chain, i).created[k].outpoint, made.outputs[k], file.outputs[k]);
    }
    MarksKeepWhole(hash, chain[i], made, file.outputs);
  }

  /** Walking what is derived from a valid whole block gives what the client should read of it. */
  lemma {:induction false} WholeBlockWalk(hash: Hasher, b: Block, s: StoredBlock, f: Filter, omit: nat -> bool)
    requires StoredWhole(hash, b, s) && ValidStored(s) && s.rawBytes > 0 && Omits(s, f, omit) && Derived(hash, s, f).Ok?
    ensures var r := Derived(hash, s, f).value;
            && Walkable(r) && r.hashBits < 256
            && Walk(r) == ClientGroups(hash, b.txs, r.hashBits, omit, |b.txs|)
  {
    Serving.ValidStoredIsGrouped(s);
    DerivedWalk(hash, s, f);
    ServedGroupsAre(hash, b, s, f, omit, Derived(hash, s, f).value.hashBits, |b.txs|);
  }

  /** The answer carries the chain's header of the block and the UID after all native outputs before it. */
  ghost predicate NamesBlock(r: LightBlock, chain: seq<Block>, start: nat, i: nat)
    requires i < |chain|
  {
    && r.height == start + i && r.blockHash == chain[i].hash && r.previousHash == chain[i].previousHash
    && r.firstUid == 1 + |ChainNatives(chain, i)| && r.txCount == |chain[i].txs|
  }

  lemma {:induction false} FileNamesBlock(apply: Apply, hash: Hasher, chain: seq<Block>, start: nat, n: nat, i: nat,
                                          file: StoredBlock, f: Filter)
    requires Laws(apply) && ValidChain(chain, start) && Runs(apply, chain, n) && i < n
        && FileHolds(apply, chain, start, n, i, file)
    requires Derived(hash, file, f).Ok?
    ensures NamesBlock(Derived(hash, file, f).value, chain, start, i) && file.rawBytes == chain[i].rawBytes
  {
    StepChangesLive(apply, chain, start, i);
    StepNumbersNatives(apply, chain, i);
    LastUidCountsNatives(apply, chain, i);
    assert ValidAt(chain, start, i);
    DerivedNames(hash, file, f);
  }

  /** Outputs are served with the width of the chain's block and of the labels asked for. */
  ghost predicate HasWidth(r: LightBlock, b: Block, labels: Option<nat>) {
    if OutputCount(r.tweaks) == 0 then r.hashBits == 0 else IsHashWidth(r.hashBits, b.rawBytes, labels)
  }

  /**
   * In any durable state, whatever crashes led to it, every committed block is served under every
   * filter whose tip is committed, with the chain's header of it. Walking the answer gives, for each
   * transaction of the chain's block with indexed outputs, its position, its tweak and the truncated
   * hashes of exactly those outputs that the chain does not spend by the filter's tip.
   */
  lemma {:induction false} ClientReadsChain(apply: Apply, hash: Hasher, chain: seq<Block>, start: nat, d: Disk, i: nat,
                                            f: Filter)
    requires Implements(apply, hash) && ValidChain(chain, start) && DiskHolds(apply, chain, start, d)
    requires i < CommittedBlocks(d, start) && WellFormedChain(chain, CommittedBlocks(d, start))
    requires TipWithin(f, start + CommittedBlocks(d, start))
    ensures Runs(apply, chain, i + 1) && start + i in d.files && Derived(hash, d.files[start + i], f).Ok?
    ensures var r := Derived(hash, d.files[start + i], f).value;
            && NamesBlock(r, chain, start, i) && HasWidth(r, chain[i], f.labels) && Walkable(r) && r.hashBits < 256
            && Walk(r) == ClientGroups(hash, chain[i].txs, r.hashBits, Spent(apply, chain, start, i, f), |chain[i].txs|)
  {
    var n := CommittedBlocks(d, start);
    ProgramIsLawful(apply, hash);
    assert FileAt(apply, chain, start, n, i, d.files) && WellFormedAt(chain, i);
    var file := d.files[start + i];
    ArchiveServes(apply, hash, chain, start, d, i, f);
    WellFormedStepServable(apply, hash, chain, start, n, i);
    MarkedStaysServable(Step(apply, chain, i).stored, file.outputs);
    FileStoresBlock(apply, hash, chain, start, n, i, file);
    FileOmits(apply, chain, start, n, i, file, f);
    WholeBlockWalk(hash, chain[i], file, f, Spent(apply, chain, start, i, f));
    FileNamesBlock(apply, hash, chain, start, n, i, file, f);
    DerivedWidth(hash, file, f);
  }
}
