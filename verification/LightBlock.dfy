/** Stored blocks, served blocks, and the validators both must pass. */
module LightBlock {
  import opened Wrappers
  import opened Words
  import opened HashPacking
  import SpentIds
  import opened TxBitmap

  /** The 32-byte payload of a Silent Payments tweak; never inspected. */
  type Tweak = nat

  type BlockHash = nat

  datatype TweakEntry = TweakEntry(outputCount: nat, tweak: Tweak)

  /** `reused` is bit 0 of the storage flags. */
  datatype StoredOutput = StoredOutput(key: Key, spentHeight: nat, reused: bool)

  datatype StoredSpend = StoredSpend(spentUid: nat, creationHeight: nat)

  const UNSPENT: nat := U32_MAX

  datatype StoredBlock = StoredBlock(
    height: nat,
    blockHash: BlockHash,
    previousHash: BlockHash,
    firstUid: nat,
    txCount: nat,
    skippedTxs: seq<bv8>,
    tweaks: seq<TweakEntry>,
    skippedOutputs: seq<nat>,
    outputs: seq<StoredOutput>,
    spends: seq<StoredSpend>,
    rawBytes: nat,
    hashesForTwoLabels: seq<bv8>,
    hashesForHundredLabels: seq<bv8>)

  datatype LightBlock = LightBlock(
    height: nat,
    blockHash: BlockHash,
    previousHash: BlockHash,
    firstUid: nat,
    txCount: nat,
    skippedTxs: seq<bv8>,
    tweaks: seq<TweakEntry>,
    hashBits: nat,
    hashes: seq<bv8>,
    spentCount: nat,
    spentIds: seq<bv8>)

  datatype LightError =
    | SpentIdsRejected
    | ResponseInvalid
    | BitmapInvalid
    | TooFewTransactions
    | GroupOverrun
    | OutputsLeftOver

  function OutputKeys(outputs: seq<StoredOutput>): (keys: seq<Key>)
    ensures |keys| == |outputs|
  {
    seq(|outputs|, i requires 0 <= i < |outputs| => outputs[i].key)
  }

  const BUDGET_TWO: nat := 2
  const BUDGET_HUNDRED: nat := 100

  function LabelBudget(labels: Option<nat>): nat {
    if labels.Some? && labels.value <= BUDGET_TWO then BUDGET_TWO else BUDGET_HUNDRED
  }

  /** The least `b` with `value <= 2^b`. */
  function CeilLog2(value: nat): nat
    requires value >= 1
  {
    BitLen(value - 1)
  }

  lemma {:induction false} CeilLog2IsLeast(value: nat)
    requires value >= 1
    ensures value <= Pow2(CeilLog2(value))
    ensures forall b: nat | b < CeilLog2(value) :: Pow2(b) < value
  {
    if value > 1 {
      BitLenBounds(value - 1);
      forall b: nat | b < CeilLog2(value)
        ensures Pow2(b) < value
      {
        Pow2Monotone(b, CeilLog2(value) - 1);
      }
    }
  }

  /** Width of a truncated hash: ceil(log2(4 * budget * rawBytes)), at most a byte. */
  function ChooseHashBits(outputCount: nat, rawBytes: nat, budget: nat): nat
  {
    if outputCount == 0 || rawBytes == 0 then 0
    else
      var value := 4 * rawBytes * (if budget == 0 then 1 else budget);
      var bits := CeilLog2(value);
      if bits < 1 then 1 else if bits > 255 then 255 else bits
  }

  /** A non-empty block with a known size is served at 9 bits or more for many labels. */
  lemma {:induction false} HundredLabelBits(outputCount: nat, rawBytes: nat)
    requires outputCount > 0 && rawBytes > 0
    ensures 9 <= ChooseHashBits(outputCount, rawBytes, BUDGET_HUNDRED) <= 255
  {
    var value := 4 * rawBytes * BUDGET_HUNDRED;
    CeilLog2IsLeast(value);
    assert Pow2(8) == 256;
    if CeilLog2(value) < 9 {
      Pow2Monotone(CeilLog2(value), 8);
    }
  }

  /**
   * The least positive width that keeps four times the labels' budget times the block's bytes apart, or
   * 255 if that is more: the budget is two for at most two labels and a hundred otherwise.
   */
  ghost predicate IsHashWidth(bits: nat, rawBytes: nat, labels: Option<nat>) {
    var value := 4 * rawBytes * (if labels.Some? && labels.value <= 2 then 2 else 100);
    && 1 <= bits <= 255
    && (bits < 255 ==> value <= Pow2(bits))
    && forall b: nat | 0 < b < bits :: Pow2(b) < value
  }

  lemma {:induction false} HashWidth(outputCount: nat, rawBytes: nat, labels: Option<nat>)
    requires outputCount > 0 && rawBytes > 0
    ensures IsHashWidth(ChooseHashBits(outputCount, rawBytes, LabelBudget(labels)), rawBytes, labels)
  {
    CeilLog2IsLeast(4 * rawBytes * LabelBudget(labels));
  }

  lemma {:induction false} HashBitsRange(outputCount: nat, rawBytes: nat, budget: nat)
    ensures ChooseHashBits(outputCount, rawBytes, budget) <= 255
    ensures ChooseHashBits(outputCount, rawBytes, budget) == 0 <==> outputCount == 0 || rawBytes == 0
  {
  }

  /** Number of outputs covered by the first `n` tweak entries. */
  function OutputsBefore(tweaks: seq<TweakEntry>, n: nat): nat
    requires n <= |tweaks|
  {
    if n == 0 then 0 else OutputsBefore(tweaks, n - 1) + tweaks[n - 1].outputCount
  }

  function OutputCount(tweaks: seq<TweakEntry>): nat {
    OutputsBefore(tweaks, |tweaks|)
  }

  /** Bitmap, counts, hash stream length and spent stream all agree. */
  predicate ValidLight(b: LightBlock) {
    && ValidBitmap(b.txCount, b.skippedTxs)
    && |b.tweaks| <= U16_MAX
    && b.txCount == SkippedCount(b.skippedTxs, b.txCount) + |b.tweaks|
    && PackedLen(OutputCount(b.tweaks), b.hashBits) == |b.hashes|
    && (OutputCount(b.tweaks) == 0 <==> b.hashBits == 0)
    && SpentIds.DecodedIds(b.spentCount, b.spentIds).Ok?
  }

  function SpentUids(spends: seq<StoredSpend>): (uids: seq<nat>)
    ensures |uids| == |spends|
    ensures forall i | 0 <= i < |spends| :: uids[i] == spends[i].spentUid
  {
    seq(|spends|, i requires 0 <= i < |spends| => spends[i].spentUid)
  }

  predicate WordSized(s: StoredBlock) {
    forall i | 0 <= i < |s.spends| :: s.spends[i].spentUid <= U64_MAX
  }

  /** Assembles a served block from its parts, as both derivations end. */
  function Serve(s: StoredBlock, skippedTxs: seq<bv8>, tweaks: seq<TweakEntry>,
                 hashBits: nat, hashes: seq<bv8>, spentUids: seq<nat>): Result<LightBlock, LightError>
  {
    if !SpentIds.Encodable(spentUids) then Err(SpentIdsRejected)
    else
      var b := LightBlock(s.height, s.blockHash, s.previousHash, s.firstUid, s.txCount, skippedTxs,
                          tweaks, hashBits, hashes, |spentUids|, SpentIds.EncodedIds(spentUids));
      if ValidLight(b) then Ok(b) else Err(ResponseInvalid)
  }

  function ResponseForLabels(s: StoredBlock, labels: Option<nat>): Result<LightBlock, LightError>
  {
    var budget := LabelBudget(labels);
    Serve(s, s.skippedTxs, s.tweaks, ChooseHashBits(|s.outputs|, s.rawBytes, budget),
          if budget == BUDGET_TWO then s.hashesForTwoLabels else s.hashesForHundredLabels,
          SpentUids(s.spends))
  }

  predicate SortedUnique(values: seq<nat>) {
    forall i | 0 < i < |values| :: values[i - 1] < values[i]
  }

  predicate SlotDomain(outputCount: nat, skippedOutputs: seq<nat>) {
    && outputCount + |skippedOutputs| <= U16_MAX + 1
    && forall i | 0 <= i < |skippedOutputs| :: skippedOutputs[i] < outputCount + |skippedOutputs|
  }

  predicate HashLengths(s: StoredBlock) {
    && |s.hashesForTwoLabels| == PackedLen(|s.outputs|, ChooseHashBits(|s.outputs|, s.rawBytes, BUDGET_TWO))
    && |s.hashesForHundredLabels| == PackedLen(|s.outputs|, ChooseHashBits(|s.outputs|, s.rawBytes, BUDGET_HUNDRED))
  }

  predicate ValidStored(s: StoredBlock) {
    && s.height <= U32_MAX
    && ValidBitmap(s.txCount, s.skippedTxs)
    && |s.tweaks| <= U16_MAX
    && s.txCount == SkippedCount(s.skippedTxs, s.txCount) + |s.tweaks|
    && |s.skippedOutputs| <= U16_MAX
    && |s.outputs| <= U16_MAX
    && SortedUnique(s.skippedOutputs)
    && SlotDomain(|s.outputs|, s.skippedOutputs)
    && HashLengths(s)
    && ResponseForLabels(s, None).Ok?
    && forall i | 0 <= i < |s.spends| :: s.spends[i].creationHeight <= s.height
  }

  // ---- What validation implies ------------------------------------------------

  /** With at least eight bits per field, the byte length determines the field count. */
  lemma {:induction false} PackedLenInjective(a: nat, b: nat, bits: nat)
    requires bits >= 8 && PackedLen(a, bits) == PackedLen(b, bits)
    ensures a == b
  {
    PackedLenGrows(a, b, bits);
    PackedLenGrows(b, a, bits);
  }

  lemma {:induction false} PackedLenGrows(a: nat, b: nat, bits: nat)
    requires bits >= 8
    ensures a < b ==> PackedLen(a, bits) < PackedLen(b, bits)
  {
    MulStep(bits, a, b);
    if a < b {
      assert a * bits == bits * a && b * bits == bits * b;
      assert a * bits + 8 <= b * bits;
    }
  }

  /**
   * No check compares the two counts. A block that passes has them equal exactly when its
   * size is known or it has no outputs.
   */
  lemma {:induction false} ValidationGroupSum(s: StoredBlock)
    requires ValidStored(s)
    ensures OutputCount(s.tweaks) == |s.outputs| <==> s.rawBytes > 0 || s.outputs == []
  {
    var bits := ChooseHashBits(|s.outputs|, s.rawBytes, BUDGET_HUNDRED);
    assert ResponseForLabels(s, None).value.hashBits == bits;
    if |s.outputs| > 0 && s.rawBytes > 0 {
      HundredLabelBits(|s.outputs|, s.rawBytes);
      PackedLenInjective(OutputCount(s.tweaks), |s.outputs|, bits);
    }
  }

  /** Blocks of unknown size whose outputs no tweak covers do pass. */
  lemma {:induction false} UncoveredOutputsPass(n: nat)
    requires 0 < n <= U16_MAX
    ensures var s := StoredBlock(0, 0, 0, 0, 0, [], [], [], seq(n, i => StoredOutput(0, UNSPENT, false)), [], 0, [],
                                 []);
            ValidStored(s) && OutputCount(s.tweaks) != |s.outputs|
  {
    PackPacks([]);
    assert SpentIds.EncodedIds([]) == [];
  }
}
