/** Replaying the responses a server gives from any durable state, under cut-through or in full. */
module ServedReplay {
  import opened Wrappers
  import opened HashPacking
  import opened LightBlock
  import opened Filtering
  import opened Chain
  import opened Ledger
  import opened Storage
  import opened Recovery
  import opened ServedArchive
  import opened CutThrough
  import SpentIds

  /** The identifiers a client decodes from a response. */
  ghost function ServedIds(b: LightBlock): set<nat> {
    match SpentIds.DecodedIds(b.spentCount, b.spentIds)
    case Err(_) => {}
    case Ok(ids) => set x | x in ids
  }

  /** Those of the response for `s` under `f`; none when it cannot be served. */
  ghost function ResponseIds(hash: Hasher, s: StoredBlock, f: Filter): set<nat> {
    match Derived(hash, s, f)
    case Err(_) => {}
    case Ok(b) => ServedIds(b)
  }

  lemma {:induction false} SortedMembers(ids: seq<nat>)
    ensures (set x | x in SpentIds.Sorted(ids)) == (set x | x in ids)
  {
    SpentIds.SortedIsSorted(ids);
    forall x
      ensures x in SpentIds.Sorted(ids) <==> x in ids
    {
      assert x in multiset(SpentIds.Sorted(ids)) <==> x in multiset(ids);
    }
  }

  lemma {:induction false} KeptUidSet(s: StoredBlock, f: Filter)
    ensures RemovedUids(s, f) == set x | x in SpentUids(KeepSpends(s.spends, s.height, f))
  {
    var kept := KeepSpends(s.spends, s.height, f);
    KeptSpendsMembers(s.spends, s.height, f);
    forall u | u in RemovedUids(s, f)
      ensures u in SpentUids(kept)
    {
      var k :| 0 <= k < |s.spends| && !OmitSpend(s.height, s.spends[k], f) && u == s.spends[k].spentUid;
      assert s.spends[k] in kept;
      var q :| 0 <= q < |kept| && kept[q] == s.spends[k];
      assert SpentUids(kept)[q] == u;
    }
    forall u | u in SpentUids(kept)
      ensures u in RemovedUids(s, f)
    {
      var q :| 0 <= q < |kept| && SpentUids(kept)[q] == u;
      assert kept[q] in kept;
    }
  }

  lemma {:induction false} KeepsAllSpends(spends: seq<StoredSpend>, height: nat, f: Filter)
    requires f.cutStart.None?
    ensures KeepSpends(spends, height, f) == spends
  {
    if spends != [] { KeepsAllSpends(spends[..|spends| - 1], height, f); }
  }

  /** The identifiers in a response are exactly those of the spends the filter does not omit. */
  lemma {:induction false} RemovedAreServed(hash: Hasher, s: StoredBlock, f: Filter)
    requires WordSized(s) && Derived(hash, s, f).Ok?
    ensures ResponseIds(hash, s, f) == RemovedUids(s, f)
  {
    var uids := SpentUids(KeepSpends(s.spends, s.height, f));
    KeptUidSet(s, f);
    SortedMembers(uids);
    if Unfiltered(f) {
      KeepsAllSpends(s.spends, s.height, f);
      SpentIds.SpentIdRoundTrip(SpentUids(s.spends));
    } else {
      FilteredSpends(hash, s, f);
    }
  }

  // ---- Replaying responses ------------------------------------------------------------------------

  ghost predicate AnsweredAt(hash: Hasher, blocks: seq<StoredBlock>, f: Filter, i: nat)
    requires i < |blocks|
  {
    WordSized(blocks[i]) && Derived(hash, blocks[i], f).Ok?
  }

  ghost predicate Answered(hash: Hasher, blocks: seq<StoredBlock>, fs: Filters) {
    Replayable(blocks) && forall i | 0 <= i < |blocks| :: AnsweredAt(hash, blocks, fs(i), i)
  }

  /** The identifiers decoded from the response for a block under a filter. */
  type Decoding = (StoredBlock, Filter) -> set<nat>

  ghost function Decode(hash: Hasher): Decoding {
    (s: StoredBlock, f: Filter) => ResponseIds(hash, s, f)
  }

  /**
   * The live UIDs after the responses for `blocks[a..b]`: each adds the outputs whose hashes it
   * carries, then removes the identifiers decoded from it.
   */
  ghost function ReplayServed(decode: Decoding, live: set<nat>, blocks: seq<StoredBlock>, a: nat, b: nat,
                              fs: Filters): set<nat>
    requires a <= b <= |blocks| && Replayable(blocks)
  {
    if a == b then live
    else
      ReplayServed(decode, live, blocks, a, b - 1, fs)
      + AddedUids(blocks[b - 1], fs(b - 1)) - decode(blocks[b - 1], fs(b - 1))
  }

  /** What is decoded is what the stored block's spends say. */
  ghost predicate DecodesSpends(decode: Decoding, blocks: seq<StoredBlock>, fs: Filters) {
    forall i | 0 <= i < |blocks| :: decode(blocks[i], fs(i)) == RemovedUids(blocks[i], fs(i))
  }

  lemma {:induction false} ReplayServedIs(decode: Decoding, live: set<nat>, blocks: seq<StoredBlock>, a: nat, b: nat,
                                          fs: Filters)
    requires a <= b <= |blocks| && Replayable(blocks) && DecodesSpends(decode, blocks, fs)
    ensures ReplayServed(decode, live, blocks, a, b, fs) == Replay(live, blocks, a, b, fs)
  {
    if a < b { ReplayServedIs(decode, live, blocks, a, b - 1, fs); }
  }

  lemma {:induction false} AnsweredDecodes(hash: Hasher, blocks: seq<StoredBlock>, fs: Filters)
    requires Answered(hash, blocks, fs)
    ensures DecodesSpends(Decode(hash), blocks, fs)
  {
    forall i | 0 <= i < |blocks|
      ensures Decode(hash)(blocks[i], fs(i)) == RemovedUids(blocks[i], fs(i))
    {
      AnsweredIds(hash, blocks, fs, i);
    }
  }

  lemma {:induction false} AnsweredIds(hash: Hasher, blocks: seq<StoredBlock>, fs: Filters, i: nat)
    requires Answered(hash, blocks, fs) && i < |blocks|
    ensures ResponseIds(hash, blocks[i], fs(i)) == RemovedUids(blocks[i], fs(i))
  {
    assert AnsweredAt(hash, blocks, fs(i), i);
    RemovedAreServed(hash, blocks[i], fs(i));
  }

  // ---- From any durable state --------------------------------------------------------------------------

  /** `blocks` are the committed files of `d`. */
  ghost predicate CommittedFiles(start: nat, d: Disk, blocks: seq<StoredBlock>) {
    |blocks| == CommittedBlocks(d, start) && forall i | 0 <= i < |blocks| :: (start + i, blocks[i]) in d.files.Items
  }

  lemma {:induction false} CommittedFileAnswers(apply: Apply, hash: Hasher, chain: seq<Block>, start: nat, d: Disk,
                                                blocks: seq<StoredBlock>, f: Filter, i: nat)
    requires Implements(apply, hash) && ValidChain(chain, start) && DiskHolds(apply, chain, start, d)
        && CommittedFiles(start, d, blocks)
    requires WellFormedChain(chain, |blocks|) && i < |blocks|
    ensures AnsweredAt(hash, blocks, f, i)
  {
    assert (start + i, blocks[i]) in d.files.Items;
    ArchiveServes(apply, hash, chain, start, d, i, f);
    assert FileAt(apply, chain, start, |blocks|, i, d.files);
    WellFormedStepServable(apply, hash, chain, start, |blocks|, i);
    MarkedStaysServable(Step(apply, chain, i).stored, blocks[i].outputs);
  }

  lemma {:induction false} CommittedFilesAnswer(apply: Apply, hash: Hasher, chain: seq<Block>, start: nat, d: Disk,
                                                blocks: seq<StoredBlock>, fs: Filters)
    requires Implements(apply, hash) && Laws(apply) && ValidChain(chain, start) && DiskHolds(apply, chain, start, d)
    requires CommittedFiles(start, d, blocks) && WellFormedChain(chain, |blocks|)
    ensures Archived(apply, chain, start, |blocks|, blocks) && Answered(hash, blocks, fs)
  {
    DiskIsArchived(apply, chain, start, d, blocks);
    ArchiveIsReplayable(apply, chain, start, |blocks|, blocks);
    forall i | 0 <= i < |blocks|
      ensures AnsweredAt(hash, blocks, fs(i), i)
    {
      CommittedFileAnswers(apply, hash, chain, start, d, blocks, fs(i), i);
    }
  }

  /** UIDs no larger than the last one before block `a` belong to nothing a later block adds. */
  lemma {:induction false} OlderUidsApart(apply: Apply, chain: seq<Block>, start: nat, n: nat, blocks: seq<StoredBlock>,
                                          a: nat, b: nat, fs: Filters, live: set<nat>)
    requires Laws(apply) && ValidChain(chain, start) && Archived(apply, chain, start, n, blocks) && a <= b <= n
        && Replayable(blocks)
    requires Runs(apply, chain, a) && forall u | u in live :: u <= Run(apply, chain, a).value.lastUid
    ensures live !! AllAdded(blocks, a, b, fs)
  {
    forall u | u in AllAdded(blocks, a, b, fs)
      ensures u > Run(apply, chain, a).value.lastUid
    {
      var i, k := AddedFrom(blocks, a, b, fs, u);
      FileUids(apply, chain, start, n, i, blocks[i]);
      StepNumbersNatives(apply, chain, i);
      LastUidCountsNatives(apply, chain, i);
      LastUidCountsNatives(apply, chain, a);
      ChainNativesGrow(chain, a, i);
      UidInBlock(Run(apply, chain, i).value, chain[i], Run(apply, chain, i + 1).value, Step(apply, chain, i), k);
    }
  }

  /**
   * In any durable state, for any tips the archive covers, replaying the cut-through responses for
   * blocks `a .. b` on any UIDs from before block `a` gives the same live set as replaying the full
   * responses, if and only if no output of the range has a stray spend.
   */
  lemma {:induction false} ServedCutThroughIff(apply: Apply, hash: Hasher, chain: seq<Block>, start: nat, d: Disk,
                                               blocks: seq<StoredBlock>, a: nat, b: nat, tips: nat -> nat,
                                               labels: Option<nat>, live: set<nat>)
    requires Implements(apply, hash) && Laws(apply) && ValidChain(chain, start) && DiskHolds(apply, chain, start, d)
    requires CommittedFiles(start, d, blocks) && WellFormedChain(chain, |blocks|) && a <= b <= |blocks|
    requires forall h | start + a <= h < start + b :: tips(h) < start + |blocks|
    requires Runs(apply, chain, a) && forall u | u in live :: u <= Run(apply, chain, a).value.lastUid
    ensures Answered(hash, blocks, Full(labels)) && Answered(hash, blocks, CutAt(start, start + a, tips, labels))
    ensures ReplayServed(Decode(hash), live, blocks, a, b, CutAt(start, start + a, tips, labels))
        == ReplayServed(Decode(hash), live, blocks, a, b, Full(labels))
       <==> !HasStray(apply, chain, start, a, b, tips)
  {
    var full, cut := Full(labels), CutAt(start, start + a, tips, labels);
    CommittedFilesAnswer(apply, hash, chain, start, d, blocks, full);
    CommittedFilesAnswer(apply, hash, chain, start, d, blocks, cut);
    OlderUidsApart(apply, chain, start, |blocks|, blocks, a, b, full, live);
    AnsweredDecodes(hash, blocks, full);
    AnsweredDecodes(hash, blocks, cut);
    ReplayServedIs(Decode(hash), live, blocks, a, b, full);
    ReplayServedIs(Decode(hash), live, blocks, a, b, cut);
    CutThroughIff(apply, chain, start, |blocks|, blocks, a, b, tips, labels, live);
  }

  /** With one tip for all pages, no higher than the last block, the live sets are always the same. */
  lemma {:induction false} ServedOneTip(apply: Apply, hash: Hasher, chain: seq<Block>, start: nat, d: Disk,
                                        blocks: seq<StoredBlock>, a: nat, b: nat, tip: nat, labels: Option<nat>,
                                        live: set<nat>)
    requires Implements(apply, hash) && ValidChain(chain, start) && DiskHolds(apply, chain, start, d)
    requires CommittedFiles(start, d, blocks) && WellFormedChain(chain, |blocks|) && a <= b <= |blocks|
        && tip < start + b
    requires Runs(apply, chain, a) && forall u | u in live :: u <= Run(apply, chain, a).value.lastUid
    ensures Answered(hash, blocks, Full(labels)) && Answered(hash, blocks, CutAt(start, start + a, Always(tip), labels))
    ensures ReplayServed(Decode(hash), live, blocks, a, b, CutAt(start, start + a, Always(tip), labels))
         == ReplayServed(Decode(hash), live, blocks, a, b, Full(labels))
  {
    ProgramIsLawful(apply, hash);
    ServedCutThroughIff(apply, hash, chain, start, d, blocks, a, b, Always(tip), labels, live);
  }
}
