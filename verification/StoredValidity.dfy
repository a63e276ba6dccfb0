/** What the validators of served and of stored blocks accept, said without their checks. */
module StoredValidity {
  import opened Wrappers
  import opened Words
  import opened HashPacking
  import opened TxBitmap
  import opened LightBlock
  import opened Filtering
  import opened Chain
  import opened NativeOutputs
  import opened Serving
  import SpentIds

  // ---- Served blocks ------------------------------------------------------------------------------------

  /** A stream of the packed length holds all its fields. */
  lemma {:induction false} PackedFieldsFit(bytes: seq<bv8>, bits: nat, count: nat)
    requires |bytes| == PackedLen(count, bits)
    ensures forall k | 0 <= k < count :: FieldFits(bytes, bits, k)
  {
    forall k | 0 <= k < count
      ensures FieldFits(bytes, bits, k)
    {
      MulCommutes(count, bits);
      MulCommutes(k + 1, bits);
      MulMonotone(bits, k + 1, count);
    }
  }

  /**
   * A served block is valid exactly when a client can walk it: a tweak for every unskipped transaction,
   * hash fields that fill the stream, no width without outputs, and a stream of the spent identifiers.
   */
  lemma {:induction false} ValidLightIff(b: LightBlock)
    ensures ValidLight(b) <==>
              && Walkable(b) && |b.tweaks| <= U16_MAX
              && |b.hashes| == PackedLen(OutputCount(b.tweaks), b.hashBits)
              && (OutputCount(b.tweaks) == 0 <==> b.hashBits == 0)
              && exists ids :: |ids| == b.spentCount && SpentIds.HoldsIds(b.spentIds, ids)
  {
    var count := OutputCount(b.tweaks);
    if ValidBitmap(b.txCount, b.skippedTxs) { SkippedAndUnskipped(b.skippedTxs, b.txCount); }
    if |b.hashes| == PackedLen(count, b.hashBits) { PackedFieldsFit(b.hashes, b.hashBits, count); }
    SpentStreamIff(b.spentCount, b.spentIds);
  }

  lemma {:induction false} SpentStreamIff(count: nat, bytes: seq<bv8>)
    ensures SpentIds.DecodedIds(count, bytes).Ok? <==> exists ids :: |ids| == count && SpentIds.HoldsIds(bytes, ids)
  {
    if SpentIds.DecodedIds(count, bytes).Ok? {
      SpentIds.DecodedIff(count, bytes, SpentIds.DecodedIds(count, bytes).value);
    }
    if ids :| |ids| == count && SpentIds.HoldsIds(bytes, ids) {
      SpentIds.DecodedIff(count, bytes, ids);
    }
  }

  // ---- The layout of stored outputs -----------------------------------------------------------------------

  ghost predicate LaidOutBy(s: StoredBlock, natives: seq<Native>) {
    && |natives| <= U16_MAX + 1
    && s.skippedOutputs == SlotsWhere(natives, false) && |s.outputs| == |SlotsWhere(natives, true)|
  }

  /** The skipped slots are those of some native outputs of which as many are indexed as outputs are stored. */
  ghost predicate LaidOut(s: StoredBlock) {
    exists natives :: LaidOutBy(s, natives)
  }

  /** `n` native outputs, all indexed but those at the skipped slots. */
  ghost function NativesAround(skipped: seq<nat>, n: nat): (natives: seq<Native>)
    ensures |natives| == n
  {
    seq(n, i requires 0 <= i < n => Native(COINBASE, None, i !in skipped))
  }

  lemma {:induction false} NativesStep(skipped: seq<nat>, less: seq<nat>, n: nat)
    requires n > 0 && forall i | 0 <= i < n - 1 :: i in skipped <==> i in less
    ensures SlotsWhere(NativesAround(skipped, n), false)
         == SlotsWhere(NativesAround(less, n - 1), false) + (if n - 1 in skipped then [n - 1] else [])
  {
    assert NativesAround(skipped, n) == NativesAround(less, n - 1) + [Native(COINBASE, None, n - 1 !in skipped)];
    SlotsWhereAppend(NativesAround(less, n - 1), Native(COINBASE, None, n - 1 !in skipped), false);
  }

  /** The skipped slots below the last one. */
  lemma {:induction false} SplitLast(skipped: seq<nat>, n: nat) returns (less: seq<nat>)
    requires SortedUnique(skipped) && n > 0 && forall i | 0 <= i < |skipped| :: skipped[i] < n
    ensures SortedUnique(less) && forall i | 0 <= i < |less| :: less[i] < n - 1
    ensures skipped == less + (if n - 1 in skipped then [n - 1] else [])
    ensures forall i | 0 <= i < n - 1 :: i in skipped <==> i in less
  {
    var last := |skipped| - 1;
    less := if skipped != [] && skipped[last] == n - 1 then skipped[..last] else skipped;
    AllBelow(less, n - 1);
    assert less != skipped ==> skipped == less + [n - 1];
  }

  lemma {:induction false} NothingBelowZero(values: seq<nat>, n: nat)
    requires forall i | 0 <= i < |values| :: values[i] < n
    ensures n == 0 ==> values == []
  {
    if values != [] { assert values[0] < n; }
  }

  lemma {:induction false} SkippedSlots(skipped: seq<nat>, n: nat)
    requires SortedUnique(skipped) && forall i | 0 <= i < |skipped| :: skipped[i] < n
    ensures SlotsWhere(NativesAround(skipped, n), false) == skipped
    decreases n
  {
    NothingBelowZero(skipped, n);
    if n == 0 {
      NothingAround(skipped);
    } else {
      var less := SplitLast(skipped, n);
      SkippedSlots(less, n - 1);
      NativesStep(skipped, less, n);
      Appended(SlotsWhere(NativesAround(skipped, n), false), less, if n - 1 in skipped then [n - 1] else [], skipped);
    }
  }

  lemma {:induction false} NothingAround(skipped: seq<nat>)
    ensures SlotsWhere(NativesAround(skipped, 0), false) == []
  {
    assert NativesAround(skipped, 0) == [];
  }

  lemma {:induction false} Appended(slots: seq<nat>, less: seq<nat>, tail: seq<nat>, skipped: seq<nat>)
    requires slots == less + tail && skipped == less + tail
    ensures slots == skipped
  {
  }

  lemma {:induction false} AllBelow(values: seq<nat>, m: nat)
    requires SortedUnique(values) && (values == [] || values[|values| - 1] < m)
    ensures forall i | 0 <= i < |values| :: values[i] < m
  {
    if |values| > 1 { AllBelow(values[..|values| - 1], m); }
  }

  lemma {:induction false} LaidOutIff(s: StoredBlock)
    ensures LaidOut(s) <==> SortedUnique(s.skippedOutputs) && SlotDomain(|s.outputs|, s.skippedOutputs)
  {
    if natives :| LaidOutBy(s, natives) {
      SlotsAscend(natives, false);
      SlotsPartition(natives);
    }
    if SortedUnique(s.skippedOutputs) && SlotDomain(|s.outputs|, s.skippedOutputs) {
      var n := |s.outputs| + |s.skippedOutputs|;
      SkippedSlots(s.skippedOutputs, n);
      SlotsPartition(NativesAround(s.skippedOutputs, n));
      assert LaidOutBy(s, NativesAround(s.skippedOutputs, n));
    }
  }

  // ---- Stored blocks --------------------------------------------------------------------------------------

  lemma {:induction false} HashWidthUnique(a: nat, b: nat, rawBytes: nat, labels: Option<nat>)
    requires IsHashWidth(a, rawBytes, labels) && IsHashWidth(b, rawBytes, labels)
    ensures a == b
  {
  }

  /** The stream has a field of the labels' hash width for every output, or nothing if the size is unknown. */
  ghost predicate HashesFill(s: StoredBlock, bytes: seq<bv8>, labels: Option<nat>) {
    if s.outputs == [] || s.rawBytes == 0 then bytes == []
    else exists bits :: IsHashWidth(bits, s.rawBytes, labels) && |bytes| == PackedLen(|s.outputs|, bits)
  }

  lemma {:induction false} HashesFillIff(s: StoredBlock, bytes: seq<bv8>, labels: Option<nat>)
    ensures HashesFill(s, bytes, labels)
       <==> |bytes| == PackedLen(|s.outputs|, ChooseHashBits(|s.outputs|, s.rawBytes, LabelBudget(labels)))
  {
    HashBitsRange(|s.outputs|, s.rawBytes, LabelBudget(labels));
    if s.outputs != [] && s.rawBytes > 0 {
      var chosen := ChooseHashBits(|s.outputs|, s.rawBytes, LabelBudget(labels));
      HashWidth(|s.outputs|, s.rawBytes, labels);
      if bits :| IsHashWidth(bits, s.rawBytes, labels) && |bytes| == PackedLen(|s.outputs|, bits) {
        HashWidthUnique(bits, chosen, s.rawBytes, labels);
      }
    }
  }

  /** The bitmap, the tweaks and their counts say the same; with an unknown size nothing is counted. */
  ghost predicate TweaksCover(s: StoredBlock) {
    && ValidBitmap(s.txCount, s.skippedTxs) && |Unskipped(s.skippedTxs, s.txCount)| == |s.tweaks|
    && OutputCount(s.tweaks) == if s.rawBytes > 0 then |s.outputs| else 0
  }

  /** The spends are of different outputs, created no later, and can be encoded. */
  ghost predicate SpendsStand(s: StoredBlock) {
    var uids := SpentUids(s.spends);
    && SpentIds.Distinct(uids) && |uids| <= U32_MAX && (uids == [] || HasSmallUid(uids))
    && forall i | 0 <= i < |s.spends| :: s.spends[i].creationHeight <= s.height
  }

  ghost predicate CountsFit(s: StoredBlock) {
    s.height <= U32_MAX && |s.tweaks| <= U16_MAX && |s.outputs| <= U16_MAX && |s.skippedOutputs| <= U16_MAX
  }

  /** The stored block's parts fit and agree. */
  ghost predicate PartsAgree(s: StoredBlock) {
    && CountsFit(s) && LaidOut(s) && TweaksCover(s) && SpendsStand(s)
    && HashesFill(s, s.hashesForTwoLabels, Some(2)) && HashesFill(s, s.hashesForHundredLabels, None)
  }

  /** A stored block with spent UIDs of 64 bits is valid exactly when its parts fit and agree. */
  lemma {:induction false} ValidStoredIff(s: StoredBlock)
    requires WordSized(s)
    ensures ValidStored(s) <==> PartsAgree(s)
  {
    if ValidStored(s) { ValidPartsAgree(s); }
    if PartsAgree(s) { AgreeingIsValid(s); }
  }

  lemma {:induction false} ValidPartsAgree(s: StoredBlock)
    requires ValidStored(s)
    ensures PartsAgree(s)
  {
    LaidOutIff(s);
    HashesFillIff(s, s.hashesForTwoLabels, Some(2));
    HashesFillIff(s, s.hashesForHundredLabels, None);
    SkippedAndUnskipped(s.skippedTxs, s.txCount);
    ValidationGroupSum(s);
    EncodableIff(SpentUids(s.spends));
  }

  lemma {:induction false} AgreeingIsValid(s: StoredBlock)
    requires WordSized(s) && PartsAgree(s)
    ensures ValidStored(s)
  {
    LaidOutIff(s);
    HashesFillIff(s, s.hashesForTwoLabels, Some(2));
    HashesFillIff(s, s.hashesForHundredLabels, None);
    PartsRespond(s);
    SkippedAndUnskipped(s.skippedTxs, s.txCount);
  }

  lemma {:induction false} PartsRespond(s: StoredBlock)
    requires WordSized(s) && CountsFit(s) && TweaksCover(s) && SpendsStand(s) && HashLengths(s)
    ensures ResponseForLabels(s, None).Ok?
  {
    SkippedAndUnskipped(s.skippedTxs, s.txCount);
    EncodableIff(SpentUids(s.spends));
    SpentWords(s, s.spends);
    HashBitsRange(|s.outputs|, s.rawBytes, BUDGET_HUNDRED);
    ServeSucceeds(s, s.skippedTxs, s.tweaks, ChooseHashBits(|s.outputs|, s.rawBytes, BUDGET_HUNDRED),
                  s.hashesForHundredLabels, SpentUids(s.spends));
  }
}
