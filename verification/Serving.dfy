/** When a valid stored block can be served under a filter. */
module Serving {
  import opened Wrappers
  import opened Words
  import opened HashPacking
  import opened TxBitmap
  import opened LightBlock
  import opened Filtering
  import SpentIds

  lemma {:induction false} ValidStoredIsGrouped(s: StoredBlock)
    requires ValidStored(s) && (s.rawBytes > 0 || s.outputs == [])
    ensures Grouped(s) && |Unskipped(s.skippedTxs, s.txCount)| == |s.tweaks|
  {
    ValidationGroupSum(s);
    SkippedAndUnskipped(s.skippedTxs, s.txCount);
  }

  // ---- Spent identifiers of a filtered block --------------------------------------------------

  lemma {:induction false} KeptUidsDistinct(spends: seq<StoredSpend>, height: nat, f: Filter)
    requires SpentIds.Distinct(SpentUids(spends))
    ensures SpentIds.Distinct(SpentUids(KeepSpends(spends, height, f)))
  {
    if spends != [] {
      var last := |spends| - 1;
      var init := spends[..last];
      forall i, j | 0 <= i < j < last
        ensures SpentUids(init)[i] != SpentUids(init)[j]
      {
        assert SpentUids(spends)[i] != SpentUids(spends)[j];
      }
      KeptUidsDistinct(init, height, f);
      var kept := KeepSpends(init, height, f);
      forall i | 0 <= i < |kept|
        ensures kept[i].spentUid != spends[last].spentUid
      {
        KeptSpendsMembers(init, height, f);
        assert kept[i] in init;
        var k :| 0 <= k < last && init[k] == kept[i];
        assert SpentUids(spends)[k] != SpentUids(spends)[last];
      }
    }
  }

  /** Some identifier is below the largest word. */
  ghost predicate HasSmallUid(uids: seq<nat>) {
    exists i :: 0 <= i < |uids| && uids[i] < U64_MAX
  }

  lemma {:induction false} FirstIsLeast(sorted: seq<nat>, i: nat)
    requires SpentIds.WeaklyAscending(sorted) && i < |sorted|
    ensures sorted[0] <= sorted[i]
  {
    if i > 0 { FirstIsLeast(sorted, i - 1); }
  }

  /** Distinct words can be encoded exactly when there are none or one is below the largest word. */
  lemma {:induction false} EncodableIff(uids: seq<nat>)
    requires SpentIds.Distinct(uids) && |uids| <= U32_MAX
    ensures SpentIds.Encodable(uids) <==> uids == [] || HasSmallUid(uids)
  {
    SpentIds.SortedIsSorted(uids);
    var sorted := SpentIds.Sorted(uids);
    if uids != [] {
      assert sorted[0] in multiset(sorted);
      assert sorted[0] in uids;
      if HasSmallUid(uids) {
        var i :| 0 <= i < |uids| && uids[i] < U64_MAX;
        assert uids[i] in multiset(sorted);
        var k :| 0 <= k < |sorted| && sorted[k] == uids[i];
        FirstIsLeast(sorted, k);
      }
    }
  }

  // ---- Validity of the served block ------------------------------------------------------------

  lemma {:induction false} ServeSucceeds(s: StoredBlock, skippedTxs: seq<bv8>, tweaks: seq<TweakEntry>, hashBits: nat,
                                         hashes: seq<bv8>, uids: seq<nat>)
    requires SpentIds.Encodable(uids) && Words64(uids)
    requires ValidBitmap(s.txCount, skippedTxs) && |tweaks| <= U16_MAX
    requires s.txCount == SkippedCount(skippedTxs, s.txCount) + |tweaks|
    requires |hashes| == PackedLen(OutputCount(tweaks), hashBits)
    requires OutputCount(tweaks) == 0 <==> hashBits == 0
    ensures Serve(s, skippedTxs, tweaks, hashBits, hashes, uids).Ok?
  {
    SpentIds.SpentIdRoundTrip(uids);
  }

  lemma {:induction false} SpentWords(s: StoredBlock, spends: seq<StoredSpend>)
    requires WordSized(s) && forall x | x in spends :: x in s.spends
    ensures Words64(SpentUids(spends))
  {
    forall i | 0 <= i < |spends|
      ensures SpentUids(spends)[i] <= U64_MAX
    {
      assert spends[i] in s.spends;
    }
  }

  lemma {:induction false} UnfilteredSucceeds(s: StoredBlock, labels: Option<nat>)
    requires ValidStored(s) && WordSized(s)
    ensures ResponseForLabels(s, labels).Ok?
  {
    ValidationGroupSum(s);
    var budget := LabelBudget(labels);
    HashBitsRange(|s.outputs|, s.rawBytes, budget);
    SpentWords(s, s.spends);
    ServeSucceeds(s, s.skippedTxs, s.tweaks, ChooseHashBits(|s.outputs|, s.rawBytes, budget),
                  if budget == BUDGET_TWO then s.hashesForTwoLabels else s.hashesForHundredLabels, SpentUids(s.spends));
  }

  lemma {:induction false} FilteredSucceeds(hash: Hasher, s: StoredBlock, f: Filter)
    requires Grouped(s) && |Unskipped(s.skippedTxs, s.txCount)| == |s.tweaks| <= U16_MAX
    requires s.rawBytes > 0 || s.outputs == []
    requires WordSized(s) && SpentIds.Encodable(SpentUids(KeepSpends(s.spends, s.height, f)))
    ensures FilteredResponse(hash, s, f).Ok?
  {
    var groups := KeptGroups(s, f, |s.tweaks|);
    var keys := OutputKeys(OutputsOf(groups, |groups|));
    var bitmap, bits := FilteredBitmap(s, f, |s.tweaks|), ChooseHashBits(|keys|, s.rawBytes, LabelBudget(f.labels));
    var kept := KeepSpends(s.spends, s.height, f);
    FilteredValid(s, f, |s.tweaks|);
    FilteredUnskipped(s, f, |s.tweaks|);
    KeptOutputs(s, f, |s.tweaks|);
    assert Unskipped(bitmap, s.txCount) == TxsOf(groups);
    SkippedAndUnskipped(bitmap, s.txCount);
    EntriesCover(groups, |groups|);
    HashBitsRange(|keys|, s.rawBytes, LabelBudget(f.labels));
    KeptSpendsMembers(s.spends, s.height, f);
    SpentWords(s, kept);
    ServeSucceeds(s, bitmap, EntriesOf(groups), bits, PackedHashes(hash, keys, bits), SpentUids(kept));
  }

  /**
   * A valid stored block is served under a filter exactly when the filter is none, or the block's size
   * is known or it has no outputs, and the filter keeps no spend or one whose UID is below the largest word.
   */
  lemma {:induction false} ServedIff(hash: Hasher, s: StoredBlock, f: Filter)
    requires ValidStored(s) && WordSized(s)
    ensures Derived(hash, s, f).Ok? <==>
            var kept := SpentUids(KeepSpends(s.spends, s.height, f));
            Unfiltered(f) || ((s.rawBytes > 0 || s.outputs == []) && (kept == [] || HasSmallUid(kept)))
  {
    if Unfiltered(f) {
      UnfilteredSucceeds(s, f.labels);
    } else if s.rawBytes > 0 || s.outputs == [] {
      var kept := KeepSpends(s.spends, s.height, f);
      ValidStoredIsGrouped(s);
      KeptUidsDistinct(s.spends, s.height, f);
      EncodableIff(SpentUids(kept));
      if SpentIds.Encodable(SpentUids(kept)) {
        FilteredSucceeds(hash, s, f);
      }
    } else {
      ValidationGroupSum(s);
    }
  }

  /** A block without outputs whose two spends are of an old output with the largest UID and of a newer one. */
  function LargestUidBlock(): StoredBlock {
    StoredBlock(9, 0, 0, 1, 0, [], [], [], [], [StoredSpend(5, 7), StoredSpend(U64_MAX, 3)], 1, [], [])
  }

  function FromHeightFive(): Filter {
    Filter(Some(5), Some(9), false, None)
  }

  lemma {:induction false} LargestUidKept()
    ensures SpentUids(KeepSpends(LargestUidBlock().spends, 9, FromHeightFive())) == [U64_MAX]
  {
    var spends, f := LargestUidBlock().spends, FromHeightFive();
    assert spends[..1] == [StoredSpend(5, 7)];
    assert KeepSpends([], 9, f) == [] && [StoredSpend(5, 7)][..0] == [];
    assert KeepSpends([StoredSpend(5, 7)], 9, f) == [];
  }

  lemma {:induction false} LargestUidEncodable()
    ensures SpentIds.Encodable([5, U64_MAX]) && Words64([5, U64_MAX])
  {
    var uids: seq<nat> := [5, U64_MAX];
    assert uids[0] < U64_MAX && uids[0] != uids[1];
    EncodableIff(uids);
  }

  lemma {:induction false} LargestUidServed()
    ensures ResponseForLabels(LargestUidBlock(), None).Ok?
  {
    var s := LargestUidBlock();
    assert SpentUids(s.spends) == [5, U64_MAX];
    LargestUidEncodable();
    ServeSucceeds(s, [], [], 0, [], SpentUids(s.spends));
  }

  /** A block without transactions and outputs passes every check but that of its response. */
  lemma {:induction false} EmptyLayoutValid(s: StoredBlock)
    requires s.txCount == 0 && s.skippedTxs == [] && s.tweaks == [] && s.skippedOutputs == [] && s.outputs == []
    requires s.hashesForTwoLabels == [] && s.hashesForHundredLabels == [] && s.height <= U32_MAX
    requires ResponseForLabels(s, None).Ok? && forall i | 0 <= i < |s.spends| :: s.spends[i].creationHeight <= s.height
    ensures ValidStored(s)
  {
  }

  lemma {:induction false} LargestUidValid()
    ensures ValidStored(LargestUidBlock())
  {
    LargestUidServed();
    EmptyLayoutValid(LargestUidBlock());
  }

  /** It is valid and served in full, but cut-through from height 5 leaves only the largest UID, and fails. */
  lemma {:induction false} LargestUidFails(hash: Hasher)
    ensures var s := LargestUidBlock();
            && ValidStored(s) && Derived(hash, s, Filter(None, None, false, None)).Ok?
            && Derived(hash, s, FromHeightFive()).Err?
  {
    LargestUidValid();
    LargestUidKept();
    ServedIff(hash, LargestUidBlock(), FromHeightFive());
    ServedIff(hash, LargestUidBlock(), Filter(None, None, false, None));
  }

  lemma {:induction false} ServedIsValid(hash: Hasher, s: StoredBlock, f: Filter)
    requires Derived(hash, s, f).Ok?
    ensures ValidLight(Derived(hash, s, f).value)
  {
  }

  lemma {:induction false} KeptUidsSmall(spends: seq<StoredSpend>, height: nat, f: Filter)
    requires forall i | 0 <= i < |spends| :: spends[i].spentUid < U64_MAX
    ensures var kept := SpentUids(KeepSpends(spends, height, f)); kept == [] || HasSmallUid(kept)
  {
    var kept := KeepSpends(spends, height, f);
    if kept != [] {
      KeptSpendsMembers(spends, height, f);
      assert kept[0] in spends;
      assert SpentUids(kept)[0] < U64_MAX;
    }
  }

  /** Every filter serves a valid block whose spent UIDs all stay below the largest word. */
  lemma {:induction false} EveryFilterServes(hash: Hasher, s: StoredBlock, f: Filter)
    requires ValidStored(s) && s.rawBytes > 0 && forall i | 0 <= i < |s.spends| :: s.spends[i].spentUid < U64_MAX
    ensures Derived(hash, s, f).Ok? && ValidLight(Derived(hash, s, f).value)
  {
    KeptUidsSmall(s.spends, s.height, f);
    ServedIff(hash, s, f);
    ServedIsValid(hash, s, f);
  }
}
