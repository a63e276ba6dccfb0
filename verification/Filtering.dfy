/** Cut-through and reuse filtering of a stored block into a served block. */
module Filtering {
  import opened Wrappers
  import opened Words
  import opened Seqs
  import opened HashPacking
  import opened TxBitmap
  import opened LightBlock
  import SpentIds

  datatype Filter = Filter(
    cutStart: Option<nat>,
    cutTip: Option<nat>,
    filterReuse: bool,
    labels: Option<nat>)

  /** The cut-through tip in force; an absent one accepts every height. */
  function EffectiveTip(f: Filter): nat {
    if f.cutTip.Some? then f.cutTip.value else U64_MAX
  }

  predicate OmitOutput(height: nat, o: StoredOutput, f: Filter) {
    || (f.filterReuse && o.reused)
    || (f.cutStart.Some? && height >= f.cutStart.value
        && o.spentHeight != UNSPENT && o.spentHeight <= EffectiveTip(f))
  }

  predicate OmitSpend(height: nat, spend: StoredSpend, f: Filter) {
    f.cutStart.Some? && height <= EffectiveTip(f) && spend.creationHeight >= f.cutStart.value
  }

  predicate Unfiltered(f: Filter) {
    !f.filterReuse && f.cutStart.None?
  }

  // ---- Per-transaction groups ---------------------------------------------------

  /** A tweak with its original transaction index and the outputs it covers. */
  datatype Group = Group(tx: nat, tweak: Tweak, outputs: seq<StoredOutput>)

  /** The tweak entries fit the bitmap, and the first `n` of them stay within the outputs. */
  predicate GroupedUpTo(s: StoredBlock, n: nat) {
    && ValidBitmap(s.txCount, s.skippedTxs)
    && n <= |s.tweaks| <= |Unskipped(s.skippedTxs, s.txCount)|
    && OutputsBefore(s.tweaks, n) <= |s.outputs|
  }

  /** The tweak entries fit the bitmap and cover the outputs exactly. */
  predicate Grouped(s: StoredBlock) {
    GroupedUpTo(s, |s.tweaks|) && OutputCount(s.tweaks) == |s.outputs|
  }

  lemma {:induction false} OutputsBeforeMonotone(tweaks: seq<TweakEntry>, i: nat, j: nat)
    requires i <= j <= |tweaks|
    ensures OutputsBefore(tweaks, i) <= OutputsBefore(tweaks, j)
  {
    if i < j { OutputsBeforeMonotone(tweaks, i, j - 1); }
  }

  /** The outputs among `outputs[lo..hi]` that are not omitted, in order. */
  function Keep(outputs: seq<StoredOutput>, lo: nat, hi: nat, height: nat, f: Filter): (kept: seq<StoredOutput>)
    requires lo <= hi <= |outputs|
    ensures |kept| <= hi - lo
  {
    if lo == hi then []
    else
      Keep(outputs, lo, hi - 1, height, f)
      + (if OmitOutput(height, outputs[hi - 1], f) then [] else [outputs[hi - 1]])
  }

  /** The `i`-th stored group, with its omitted outputs removed. */
  function KeptGroup(s: StoredBlock, f: Filter, i: nat): (g: Group)
    requires GroupedUpTo(s, i + 1)
  {
    Group(Unskipped(s.skippedTxs, s.txCount)[i], s.tweaks[i].tweak,
          Keep(s.outputs, OutputsBefore(s.tweaks, i), OutputsBefore(s.tweaks, i + 1), s.height, f))
  }

  function KeepSpends(spends: seq<StoredSpend>, height: nat, f: Filter): (kept: seq<StoredSpend>)
    ensures |kept| <= |spends|
  {
    if spends == [] then []
    else
      var last := spends[|spends| - 1];
      KeepSpends(spends[..|spends| - 1], height, f) + (if OmitSpend(height, last, f) then [] else [last])
  }

  /** The first `n` stored groups with omitted outputs removed and empty groups dropped. */
  function KeptGroups(s: StoredBlock, f: Filter, n: nat): (groups: seq<Group>)
    requires GroupedUpTo(s, n)
    ensures |groups| <= n
  {
    if n == 0 then []
    else
      var g := KeptGroup(s, f, n - 1);
      KeptGroups(s, f, n - 1) + (if g.outputs == [] then [] else [g])
  }

  function EntriesOf(groups: seq<Group>): (entries: seq<TweakEntry>)
    ensures |entries| == |groups|
  {
    seq(|groups|, i requires 0 <= i < |groups| => TweakEntry(|groups[i].outputs|, groups[i].tweak))
  }

  function TxsOf(groups: seq<Group>): (txs: seq<nat>)
    ensures |txs| == |groups|
  {
    seq(|groups|, i requires 0 <= i < |groups| => groups[i].tx)
  }

  /** All outputs of the first `n` groups, in order. */
  function OutputsOf(groups: seq<Group>, n: nat): seq<StoredOutput>
    requires n <= |groups|
  {
    if n == 0 then [] else OutputsOf(groups, n - 1) + groups[n - 1].outputs
  }

  // ---- The client's walk over a served block -----------------------------------

  /** A served tweak with its transaction and the hash fields the client reads for it. */
  datatype Served = Served(tx: nat, tweak: Tweak, fields: seq<seq<bool>>)

  predicate Walkable(b: LightBlock) {
    && ValidBitmap(b.txCount, b.skippedTxs)
    && |b.tweaks| == |Unskipped(b.skippedTxs, b.txCount)|
    && (forall k | 0 <= k < OutputCount(b.tweaks) :: FieldFits(b.hashes, b.hashBits, k))
  }

  /** The hash fields `start .. start + count` of a stream. */
  function Fields(bytes: seq<bv8>, bits: nat, start: nat, count: nat): (fields: seq<seq<bool>>)
    requires forall k | 0 <= k < start + count :: FieldFits(bytes, bits, k)
    ensures |fields| == count
  {
    seq(count, j requires 0 <= j < count => UnpackField(bytes, bits, start + j))
  }

  /** What the client reads for the `i`-th tweak. */
  function ServedAt(b: LightBlock, i: nat): Served
    requires Walkable(b) && i < |b.tweaks|
  {
    OutputsBeforeMonotone(b.tweaks, i + 1, |b.tweaks|);
    Served(Unskipped(b.skippedTxs, b.txCount)[i], b.tweaks[i].tweak,
           Fields(b.hashes, b.hashBits, OutputsBefore(b.tweaks, i), b.tweaks[i].outputCount))
  }

  /** Walks bitmap, tweaks, counts and hashes together, as a client does. */
  function Walk(b: LightBlock): (served: seq<Served>)
    requires Walkable(b)
    ensures |served| == |b.tweaks|
  {
    seq(|b.tweaks|, i requires 0 <= i < |b.tweaks| => ServedAt(b, i))
  }

  /** What the client should see of a group: the truncated hash of each of its outputs. */
  function ServeGroup(hash: Hasher, g: Group, bits: nat): Served
    requires bits < 256
  {
    Served(g.tx, g.tweak,
      seq(|g.outputs|, j requires 0 <= j < |g.outputs| => Unpack(hash(g.outputs[j].key))[..bits]))
  }

  function ServeGroups(hash: Hasher, groups: seq<Group>, bits: nat): (served: seq<Served>)
    requires bits < 256
    ensures |served| == |groups|
  {
    seq(|groups|, i requires 0 <= i < |groups| => ServeGroup(hash, groups[i], bits))
  }

  // ---- The filtered derivation as a function ------------------------------------

  /** The bitmap with the transactions of dropped groups marked, after `n` groups. */
  function FilteredBitmap(s: StoredBlock, f: Filter, n: nat): (bitmap: seq<bv8>)
    requires GroupedUpTo(s, n)
    ensures |bitmap| == |s.skippedTxs|
  {
    if n == 0 then s.skippedTxs
    else
      var g := KeptGroup(s, f, n - 1);
      var front := FilteredBitmap(s, f, n - 1);
      if g.outputs == [] then WithTx(front, g.tx) else front
  }

  function FilteredResponse(hash: Hasher, s: StoredBlock, f: Filter): Result<LightBlock, LightError>
    requires Grouped(s)
  {
    var groups := KeptGroups(s, f, |s.tweaks|);
    var keys := OutputKeys(OutputsOf(groups, |groups|));
    var bits := ChooseHashBits(|keys|, s.rawBytes, LabelBudget(f.labels));
    HashBitsRange(|keys|, s.rawBytes, LabelBudget(f.labels));
    Serve(s, FilteredBitmap(s, f, |s.tweaks|), EntriesOf(groups), bits,
          PackedHashes(hash, keys, bits), SpentUids(KeepSpends(s.spends, s.height, f)))
  }

  // ---- Filtering is a homomorphism -----------------------------------------------

  lemma {:induction false} DroppedTx(bitmap: seq<bv8>, n: nat, kept: seq<nat>, tx: nat, rest: seq<nat>)
    requires n <= 8 * |bitmap| && Unskipped(bitmap, n) == kept + ([tx] + rest)
    ensures tx < n && Unskipped(WithTx(bitmap, tx), n) == kept + rest
  {
    var txs := Unskipped(bitmap, n);
    assert txs[|kept|] == tx;
    assert txs[..|kept|] == kept && txs[|kept| + 1..] == rest;
    UnskippedWithout(bitmap, n, |kept|);
  }

  lemma {:induction false} TxsOfAppend(groups: seq<Group>, g: Group)
    ensures TxsOf(groups + [g]) == TxsOf(groups) + [g.tx]
  {
  }

  lemma {:induction false} FilteredValid(s: StoredBlock, f: Filter, n: nat)
    requires GroupedUpTo(s, n)
    ensures ValidBitmap(s.txCount, FilteredBitmap(s, f, n))
  {
    if n > 0 {
      FilteredValid(s, f, n - 1);
      WithTxValid(s.txCount, FilteredBitmap(s, f, n - 1), KeptGroup(s, f, n - 1).tx);
    }
  }

  /** The unskipped transactions are those of the kept groups, then those of the groups still to come. */
  lemma {:induction false} FilteredUnskipped(s: StoredBlock, f: Filter, n: nat)
    requires GroupedUpTo(s, n)
    ensures Unskipped(FilteredBitmap(s, f, n), s.txCount)
         == TxsOf(KeptGroups(s, f, n)) + Unskipped(s.skippedTxs, s.txCount)[n..]
  {
    var all := Unskipped(s.skippedTxs, s.txCount);
    if n == 0 {
      assert TxsOf([]) + all[0..] == all;
    } else {
      FilteredUnskipped(s, f, n - 1);
      var front, groups := FilteredBitmap(s, f, n - 1), KeptGroups(s, f, n - 1);
      var g := KeptGroup(s, f, n - 1);
      DropNext(all, n - 1);
      NextUnskipped(front, s.txCount, groups, g, all[n..]);
    }
  }

  /** The next group's transaction stays unskipped exactly when the group is kept. */
  lemma {:induction false} NextUnskipped(front: seq<bv8>, n: nat, groups: seq<Group>, g: Group, rest: seq<nat>)
    requires n <= 8 * |front| && Unskipped(front, n) == TxsOf(groups) + ([g.tx] + rest)
    ensures g.tx < n
    ensures Unskipped(if g.outputs == [] then WithTx(front, g.tx) else front, n)
         == TxsOf(groups + (if g.outputs == [] then [] else [g])) + rest
  {
    DroppedTx(front, n, TxsOf(groups), g.tx, rest);
    TxsOfAppend(groups, g);
    Regroup(TxsOf(groups), [g.tx], rest);
  }

  lemma {:induction false} EntriesCover(groups: seq<Group>, n: nat)
    requires n <= |groups|
    ensures OutputsBefore(EntriesOf(groups), n) == |OutputsOf(groups, n)|
  {
    if n > 0 { EntriesCover(groups, n - 1); }
  }

  lemma {:induction false} OutputInGroup(groups: seq<Group>, n: nat, i: nat, j: nat)
    requires i < n <= |groups| && j < |groups[i].outputs|
    ensures |OutputsOf(groups, i)| + j < |OutputsOf(groups, n)|
    ensures OutputsOf(groups, n)[|OutputsOf(groups, i)| + j] == groups[i].outputs[j]
  {
    if i < n - 1 { OutputInGroup(groups, n - 1, i, j); }
  }

  /** Walking a served block whose parts come from `groups` gives those groups back. */
  lemma {:induction false} WalkOfGroups(hash: Hasher, groups: seq<Group>, b: LightBlock)
    requires Walkable(b) && b.tweaks == EntriesOf(groups)
    requires Unskipped(b.skippedTxs, b.txCount) == TxsOf(groups)
    requires 0 < b.hashBits < 256
    requires b.hashes == PackedHashes(hash, OutputKeys(OutputsOf(groups, |groups|)), b.hashBits)
    ensures Walk(b) == ServeGroups(hash, groups, b.hashBits)
  {
    var keys := OutputKeys(OutputsOf(groups, |groups|));
    UnpackAfterPack(hash, keys, b.hashBits);
    forall i | 0 <= i < |groups|
      ensures Walk(b)[i] == ServeGroup(hash, groups[i], b.hashBits)
    {
      EntriesCover(groups, i);
      OutputsBeforeMonotone(b.tweaks, i + 1, |b.tweaks|);
      forall j | 0 <= j < |groups[i].outputs|
        ensures Walk(b)[i].fields[j] == ServeGroup(hash, groups[i], b.hashBits).fields[j]
      {
        OutputInGroup(groups, |groups|, i, j);
        assert keys[OutputsBefore(b.tweaks, i) + j] == groups[i].outputs[j].key;
      }
    }
  }

  lemma {:induction false} KeptGroupsNonEmpty(s: StoredBlock, f: Filter, n: nat, i: nat)
    requires GroupedUpTo(s, n) && i < |KeptGroups(s, f, n)|
    ensures KeptGroups(s, f, n)[i].outputs != []
  {
    if i < |KeptGroups(s, f, n - 1)| { KeptGroupsNonEmpty(s, f, n - 1, i); }
  }

  lemma {:induction false} HashesCoverFields(count: nat, bits: nat, bytes: seq<bv8>)
    requires |bytes| == PackedLen(count, bits)
    ensures forall k | 0 <= k < count :: FieldFits(bytes, bits, k)
  {
    forall k | 0 <= k < count
      ensures FieldFits(bytes, bits, k)
    {
      MulMonotone(bits, k + 1, count);
      MulCommutes(bits, k + 1);
      MulCommutes(bits, count);
    }
  }

  lemma {:induction false} ValidLightIsWalkable(b: LightBlock)
    requires ValidLight(b)
    ensures Walkable(b)
  {
    SkippedAndUnskipped(b.skippedTxs, b.txCount);
    HashesCoverFields(OutputCount(b.tweaks), b.hashBits, b.hashes);
  }

  /**
   * Walking a filtered response gives exactly the stored groups with the omitted outputs
   * removed and empty groups dropped, each tweak still at its original transaction.
   */
  lemma {:induction false} FilteringIsHomomorphic(hash: Hasher, s: StoredBlock, f: Filter)
    requires Grouped(s) && FilteredResponse(hash, s, f).Ok?
    ensures var b := FilteredResponse(hash, s, f).value;
            && Walkable(b) && b.hashBits < 256
            && Walk(b) == ServeGroups(hash, KeptGroups(s, f, |s.tweaks|), b.hashBits)
  {
    var b := FilteredResponse(hash, s, f).value;
    var groups := KeptGroups(s, f, |s.tweaks|);
    ValidLightIsWalkable(b);
    FilteredUnskipped(s, f, |s.tweaks|);
    assert Unskipped(s.skippedTxs, s.txCount)[|s.tweaks|..] == [];
    EntriesCover(groups, |groups|);
    HashBitsRange(|OutputsOf(groups, |groups|)|, s.rawBytes, LabelBudget(f.labels));
    if groups == [] {
      assert Walk(b) == ServeGroups(hash, groups, b.hashBits);
    } else {
      KeptGroupsNonEmpty(s, f, |s.tweaks|, 0);
      OutputInGroup(groups, |groups|, 0, 0);
      WalkOfGroups(hash, groups, b);
    }
  }

  // ---- Outputs and spends of the whole block --------------------------------------

  lemma {:induction false} KeepConcat(outputs: seq<StoredOutput>, lo: nat, mid: nat, hi: nat, height: nat, f: Filter)
    requires lo <= mid <= hi <= |outputs|
    ensures Keep(outputs, lo, hi, height, f)
         == Keep(outputs, lo, mid, height, f) + Keep(outputs, mid, hi, height, f)
  {
    if mid < hi {
      KeepConcat(outputs, lo, mid, hi - 1, height, f);
      Regroup(Keep(outputs, lo, mid, height, f), Keep(outputs, mid, hi - 1, height, f),
              if OmitOutput(height, outputs[hi - 1], f) then [] else [outputs[hi - 1]]);
    }
  }

  lemma {:induction false} OutputsOfStep(groups: seq<Group>, g: Group)
    ensures var next := groups + (if g.outputs == [] then [] else [g]);
            OutputsOf(next, |next|) == OutputsOf(groups, |groups|) + g.outputs
  {
    if g.outputs == [] {
      assert groups + [] == groups;
    } else {
      OutputsOfPrefix(groups, groups + [g], |groups|);
    }
  }

  /** Group by group or all at once, the same outputs are kept in the same order. */
  lemma {:induction false} KeptOutputs(s: StoredBlock, f: Filter, n: nat)
    requires GroupedUpTo(s, n)
    ensures OutputsOf(KeptGroups(s, f, n), |KeptGroups(s, f, n)|)
         == Keep(s.outputs, 0, OutputsBefore(s.tweaks, n), s.height, f)
  {
    if n > 0 {
      KeptOutputs(s, f, n - 1);
      KeepConcat(s.outputs, 0, OutputsBefore(s.tweaks, n - 1), OutputsBefore(s.tweaks, n), s.height, f);
      OutputsOfStep(KeptGroups(s, f, n - 1), KeptGroup(s, f, n - 1));
    }
  }

  lemma {:induction false} OutputsOfPrefix(a: seq<Group>, b: seq<Group>, n: nat)
    requires n <= |a| && n <= |b| && forall i | 0 <= i < n :: a[i] == b[i]
    ensures OutputsOf(a, n) == OutputsOf(b, n)
  {
    if n > 0 { OutputsOfPrefix(a, b, n - 1); }
  }

  /** A filtered response hashes exactly the outputs that are not omitted, in dense order. */
  lemma {:induction false} FilteredHashes(hash: Hasher, s: StoredBlock, f: Filter)
    requires Grouped(s) && FilteredResponse(hash, s, f).Ok?
    ensures var b := FilteredResponse(hash, s, f).value;
            b.hashBits < 256
              && b.hashes == PackedHashes(hash, OutputKeys(Keep(s.outputs, 0, |s.outputs|, s.height, f)), b.hashBits)
  {
    KeptOutputs(s, f, |s.tweaks|);
    HashBitsRange(|Keep(s.outputs, 0, |s.outputs|, s.height, f)|, s.rawBytes, LabelBudget(f.labels));
  }

  /** The spent stream of a filtered response decodes to the kept spends, ascending. */
  lemma {:induction false} FilteredSpends(hash: Hasher, s: StoredBlock, f: Filter)
    requires Grouped(s) && WordSized(s) && FilteredResponse(hash, s, f).Ok?
    ensures var b := FilteredResponse(hash, s, f).value;
            SpentIds.DecodedIds(b.spentCount, b.spentIds)
            == Ok(SpentIds.Sorted(SpentUids(KeepSpends(s.spends, s.height, f))))
  {
    var kept := KeepSpends(s.spends, s.height, f);
    KeptSpendsMembers(s.spends, s.height, f);
    forall i | 0 <= i < |kept|
      ensures SpentUids(kept)[i] <= U64_MAX
    {
      assert kept[i] in kept;
    }
    SpentIds.SpentIdRoundTrip(SpentUids(kept));
  }

  lemma {:induction false} KeptSpendsMembers(spends: seq<StoredSpend>, height: nat, f: Filter)
    ensures forall x :: x in KeepSpends(spends, height, f) <==> x in spends && !OmitSpend(height, x, f)
  {
    if spends != [] {
      var init, last := spends[..|spends| - 1], spends[|spends| - 1];
      KeptSpendsMembers(init, height, f);
      assert spends == init + [last];
    }
  }

  // ---- The derivation as the server runs it ----------------------------------------

  /** Once `count` unskipped transactions have been found, or all have been seen, the rest do not matter. */
  lemma {:induction false} UnskippedUpTo(bitmap: seq<bv8>, tx: nat, n: nat, count: nat)
    requires tx <= n <= 8 * |bitmap| && |Unskipped(bitmap, tx)| <= count
    requires tx == n || |Unskipped(bitmap, tx)| == count
    ensures |Unskipped(bitmap, tx)| == count <==> count <= |Unskipped(bitmap, n)|
    ensures count <= |Unskipped(bitmap, n)| ==> Unskipped(bitmap, tx) == Unskipped(bitmap, n)[..count]
  {
    UnskippedPrefix(bitmap, tx, n);
  }

  /** The transactions of the first `tweakCount` tweak entries. */
  method DeriveTweakTxs(txCount: nat, bitmap: seq<bv8>, tweakCount: nat)
    returns (r: Result<seq<nat>, LightError>)
    ensures r.Err? ==> r.error == if ValidBitmap(txCount, bitmap) then TooFewTransactions else BitmapInvalid
    ensures r.Ok? <==> ValidBitmap(txCount, bitmap) && tweakCount <= |Unskipped(bitmap, txCount)|
    ensures r.Ok? ==> r.value == Unskipped(bitmap, txCount)[..tweakCount]
  {
    var valid := ValidateBitmap(txCount, bitmap);
    if !valid {
      return Err(BitmapInvalid);
    }
    var indexes := [];
    var tx := 0;
    while tx < txCount && |indexes| < tweakCount
      invariant tx <= txCount && |indexes| <= tweakCount && indexes == Unskipped(bitmap, tx)
    {
      if !TxBit(bitmap, tx) {
        indexes := indexes + [tx];
      }
      tx := tx + 1;
    }
    UnskippedUpTo(bitmap, tx, txCount, tweakCount);
    if |indexes| != tweakCount {
      return Err(TooFewTransactions);
    }
    r := Ok(indexes);
  }

  /** Appends the keys of the kept outputs of one group; returns how many there are. */
  method FilterGroup(s: StoredBlock, lo: nat, hi: nat, f: Filter, keys: seq<Key>)
    returns (outKeys: seq<Key>, keptCount: nat)
    requires lo <= hi <= |s.outputs|
    ensures keptCount == |Keep(s.outputs, lo, hi, s.height, f)|
    ensures outKeys == keys + OutputKeys(Keep(s.outputs, lo, hi, s.height, f))
  {
    outKeys, keptCount := keys, 0;
    assert keys + OutputKeys([]) == keys;
    for j := lo to hi
      invariant keptCount == |Keep(s.outputs, lo, j, s.height, f)|
      invariant outKeys == keys + OutputKeys(Keep(s.outputs, lo, j, s.height, f))
    {
      ghost var front := Keep(s.outputs, lo, j, s.height, f);
      if !OmitOutput(s.height, s.outputs[j], f) {
        assert OutputKeys(front + [s.outputs[j]]) == OutputKeys(front) + [s.outputs[j].key];
        Regroup(keys, OutputKeys(front), [s.outputs[j].key]);
        outKeys := outKeys + [s.outputs[j].key];
        keptCount := keptCount + 1;
      }
    }
  }

  method FilterSpends(spends: seq<StoredSpend>, height: nat, f: Filter) returns (uids: seq<nat>)
    ensures uids == SpentUids(KeepSpends(spends, height, f))
  {
    uids := [];
    for i := 0 to |spends|
      invariant uids == SpentUids(KeepSpends(spends[..i], height, f))
    {
      TakeNext(spends, i + 1);
      assert spends[..i + 1][..i] == spends[..i];
      if !OmitSpend(height, spends[i], f) {
        uids := uids + [spends[i].spentUid];
      }
    }
    assert spends[..|spends|] == spends;
  }

  /** The first failed check of the stored layout, if any. */
  function LayoutError(s: StoredBlock): (e: Option<LightError>)
    ensures e.None? <==> Grouped(s)
  {
    if !ValidBitmap(s.txCount, s.skippedTxs) then Some(BitmapInvalid)
    else if |s.tweaks| > |Unskipped(s.skippedTxs, s.txCount)| then Some(TooFewTransactions)
    else if OutputCount(s.tweaks) > |s.outputs| then Some(GroupOverrun)
    else if OutputCount(s.tweaks) < |s.outputs| then Some(OutputsLeftOver)
    else None
  }

  /** What the derivation returns, errors included. */
  function Derived(hash: Hasher, s: StoredBlock, f: Filter): Result<LightBlock, LightError>
  {
    if Unfiltered(f) then ResponseForLabels(s, f.labels)
    else if LayoutError(s).Some? then Err(LayoutError(s).value)
    else FilteredResponse(hash, s, f)
  }

  /** What is served under any filter carries the stored block's own header. */
  lemma {:induction false} DerivedNames(hash: Hasher, s: StoredBlock, f: Filter)
    requires Derived(hash, s, f).Ok?
    ensures var r := Derived(hash, s, f).value;
            && r.height == s.height && r.blockHash == s.blockHash && r.previousHash == s.previousHash
            && r.firstUid == s.firstUid && r.txCount == s.txCount
  {
  }

  /** A served block with outputs has the hash width of its size and of the labels asked for, an empty one none. */
  lemma {:induction false} DerivedWidth(hash: Hasher, s: StoredBlock, f: Filter)
    requires Derived(hash, s, f).Ok? && s.rawBytes > 0
    ensures var r := Derived(hash, s, f).value;
            if OutputCount(r.tweaks) == 0 then r.hashBits == 0 else IsHashWidth(r.hashBits, s.rawBytes, f.labels)
  {
    var r := Derived(hash, s, f).value;
    if OutputCount(r.tweaks) > 0 {
      var groups := if Unfiltered(f) then [] else KeptGroups(s, f, |s.tweaks|);
      var count := if Unfiltered(f) then |s.outputs| else |OutputsOf(groups, |groups|)|;
      assert r.hashBits == ChooseHashBits(count, s.rawBytes, LabelBudget(f.labels));
      HashWidth(count, s.rawBytes, f.labels);
    }
  }

  /** The bitmap, keys and tweak entries collected from the first `n` groups. */
  ghost predicate FilteredSoFar(s: StoredBlock, f: Filter, n: nat,
                                bitmap: seq<bv8>, keys: seq<Key>, tweaks: seq<TweakEntry>)
    requires GroupedUpTo(s, n)
  {
    && bitmap == FilteredBitmap(s, f, n)
    && tweaks == EntriesOf(KeptGroups(s, f, n))
    && keys == OutputKeys(OutputsOf(KeptGroups(s, f, n), |KeptGroups(s, f, n)|))
  }

  /** Filters the `i`-th group, that of transaction `tx`. */
  method FilterTweak(s: StoredBlock, f: Filter, i: nat, cursor: nat, tx: nat,
                     bitmap: array<bv8>, keys: seq<Key>, tweaks: seq<TweakEntry>)
    returns (outKeys: seq<Key>, outTweaks: seq<TweakEntry>)
    requires GroupedUpTo(s, i + 1) && FilteredSoFar(s, f, i, bitmap[..], keys, tweaks)
    requires cursor == OutputsBefore(s.tweaks, i) && tx == Unskipped(s.skippedTxs, s.txCount)[i]
    modifies bitmap
    ensures FilteredSoFar(s, f, i + 1, bitmap[..], outKeys, outTweaks)
  {
    ghost var groups, g := KeptGroups(s, f, i), KeptGroup(s, f, i);
    var keptCount;
    outKeys, keptCount := FilterGroup(s, cursor, cursor + s.tweaks[i].outputCount, f, keys);
    outTweaks := tweaks;
    GroupKeys(groups, g);
    if keptCount > 0 {
      outTweaks := tweaks + [TweakEntry(keptCount, s.tweaks[i].tweak)];
    } else {
      FilteredValid(s, f, i);
      var ok := SetSkipped(s.txCount, bitmap, tx);
    }
  }

  /** What is collected from the groups before the response is assembled. */
  datatype Filtered = Filtered(bitmap: seq<bv8>, keys: seq<Key>, tweaks: seq<TweakEntry>)

  method FilterTweaks(s: StoredBlock, f: Filter) returns (r: Result<Filtered, LightError>)
    ensures r.Err? ==> LayoutError(s) == Some(r.error)
    ensures r.Ok? ==> Grouped(s) && FilteredSoFar(s, f, |s.tweaks|, r.value.bitmap, r.value.keys, r.value.tweaks)
  {
    var bitmap := new bv8[|s.skippedTxs|](i requires 0 <= i < |s.skippedTxs| => s.skippedTxs[i]);
    assert bitmap[..] == s.skippedTxs;
    var keys, tweaks, cursor := [], [], 0;
    var txs := DeriveTweakTxs(s.txCount, s.skippedTxs, |s.tweaks|);
    if txs.Err? {
      return Err(txs.error);
    }
    for i := 0 to |s.tweaks|
      invariant GroupedUpTo(s, i) && cursor == OutputsBefore(s.tweaks, i)
      invariant FilteredSoFar(s, f, i, bitmap[..], keys, tweaks)
    {
      var groupEnd := cursor + s.tweaks[i].outputCount;
      if groupEnd > |s.outputs| {
        OutputsBeforeMonotone(s.tweaks, i + 1, |s.tweaks|);
        return Err(GroupOverrun);
      }
      keys, tweaks := FilterTweak(s, f, i, cursor, txs.value[i], bitmap, keys, tweaks);
      cursor := groupEnd;
    }
    if cursor != |s.outputs| {
      return Err(OutputsLeftOver);
    }
    r := Ok(Filtered(bitmap[..], keys, tweaks));
  }

  method ToFilteredResponse(hash: Hasher, s: StoredBlock, f: Filter)
    returns (r: Result<LightBlock, LightError>)
    ensures r == Derived(hash, s, f)
  {
    if Unfiltered(f) {
      return ResponseForLabels(s, f.labels);
    }
    var parts := FilterTweaks(s, f);
    if parts.Err? {
      return Err(parts.error);
    }
    var spentUids := FilterSpends(s.spends, s.height, f);
    r := ServeFiltered(hash, s, f, parts.value.bitmap, parts.value.keys, parts.value.tweaks, spentUids);
  }

  method ServeFiltered(hash: Hasher, s: StoredBlock, f: Filter, bitmap: seq<bv8>, keys: seq<Key>,
                       tweaks: seq<TweakEntry>, spentUids: seq<nat>)
    returns (r: Result<LightBlock, LightError>)
    requires Grouped(s) && FilteredSoFar(s, f, |s.tweaks|, bitmap, keys, tweaks)
    requires spentUids == SpentUids(KeepSpends(s.spends, s.height, f))
    ensures r == FilteredResponse(hash, s, f)
  {
    var bits := ChooseHashBits(|keys|, s.rawBytes, LabelBudget(f.labels));
    HashBitsRange(|keys|, s.rawBytes, LabelBudget(f.labels));
    var hashes := PackHashes(hash, keys, bits);
    r := Serve(s, bitmap, tweaks, bits, hashes, spentUids);
  }

  lemma {:induction false} GroupKeys(groups: seq<Group>, g: Group)
    ensures var next := groups + (if g.outputs == [] then [] else [g]);
            && OutputKeys(OutputsOf(next, |next|)) == OutputKeys(OutputsOf(groups, |groups|)) + OutputKeys(g.outputs)
            && EntriesOf(next) == EntriesOf(groups)
                 + (if g.outputs == [] then [] else [TweakEntry(|g.outputs|, g.tweak)])
  {
    OutputsOfStep(groups, g);
    if g.outputs == [] {
      assert groups + [] == groups;
    }
  }
}
