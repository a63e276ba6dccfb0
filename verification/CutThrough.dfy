/** Replaying cut-through responses against replaying the full ones. */
module CutThrough {
  import opened Wrappers
  import opened LightBlock
  import opened Filtering
  import opened Chain
  import opened BlockEffect
  import opened NativeOutputs
  import opened Ledger
  import opened Storage
  import opened Recovery

  // ---- Replay ------------------------------------------------------------------------------------

  /** The UIDs a response adds: those of the outputs it does not omit. */
  ghost function AddedUids(s: StoredBlock, f: Filter): set<nat>
    requires |OutputUids(s)| == |s.outputs|
  {
    set k | 0 <= k < |s.outputs| && !OmitOutput(s.height, s.outputs[k], f) :: OutputUids(s)[k]
  }

  /** The UIDs a response removes: those of the spends it does not omit. */
  ghost function RemovedUids(s: StoredBlock, f: Filter): set<nat> {
    set k | 0 <= k < |s.spends| && !OmitSpend(s.height, s.spends[k], f) :: s.spends[k].spentUid
  }

  /** A filter per block index. */
  type Filters = nat -> Filter

  ghost predicate Replayable(blocks: seq<StoredBlock>) {
    forall i | 0 <= i < |blocks| :: |OutputUids(blocks[i])| == |blocks[i].outputs|
  }

  /** The live UIDs after the responses for `blocks[a..b]`: each adds its outputs, then removes its spends. */
  ghost function Replay(live: set<nat>, blocks: seq<StoredBlock>, a: nat, b: nat, fs: Filters): set<nat>
    requires a <= b <= |blocks| && Replayable(blocks)
  {
    if a == b then live
    else
      Replay(live, blocks, a, b - 1, fs) + AddedUids(blocks[b - 1], fs(b - 1)) - RemovedUids(blocks[b - 1], fs(b - 1))
  }

  ghost function AllAdded(blocks: seq<StoredBlock>, a: nat, b: nat, fs: Filters): set<nat>
    requires a <= b <= |blocks| && Replayable(blocks)
  {
    if a == b then {} else AllAdded(blocks, a, b - 1, fs) + AddedUids(blocks[b - 1], fs(b - 1))
  }

  ghost function AllRemoved(blocks: seq<StoredBlock>, a: nat, b: nat, fs: Filters): set<nat>
    requires a <= b <= |blocks|
  {
    if a == b then {} else AllRemoved(blocks, a, b - 1, fs) + RemovedUids(blocks[b - 1], fs(b - 1))
  }

  ghost predicate AddsNew(blocks: seq<StoredBlock>, a: nat, i: nat, fs: Filters)
    requires a <= i < |blocks| && Replayable(blocks)
  {
    AddedUids(blocks[i], fs(i)) !! AllRemoved(blocks, a, i, fs)
  }

  /** No block adds what an earlier one removes. */
  ghost predicate InOrder(blocks: seq<StoredBlock>, a: nat, b: nat, fs: Filters)
    requires a <= b <= |blocks| && Replayable(blocks)
  {
    forall i | a <= i < b :: AddsNew(blocks, a, i, fs)
  }

  lemma {:induction false} AddThenRemove(live: set<nat>, added: set<nat>, removed: set<nat>, add: set<nat>,
                                         remove: set<nat>)
    requires add !! removed
    ensures live + added - removed + add - remove == live + (added + add) - (removed + remove)
  {
  }

  /** In order, a replay is one addition and one removal. */
  lemma {:induction false} ReplayAtOnce(live: set<nat>, blocks: seq<StoredBlock>, a: nat, b: nat, fs: Filters)
    requires a <= b <= |blocks| && Replayable(blocks) && InOrder(blocks, a, b, fs)
    ensures Replay(live, blocks, a, b, fs) == live + AllAdded(blocks, a, b, fs) - AllRemoved(blocks, a, b, fs)
  {
    if a < b {
      ReplayAtOnce(live, blocks, a, b - 1, fs);
      assert AddsNew(blocks, a, b - 1, fs);
      AddThenRemove(live, AllAdded(blocks, a, b - 1, fs), AllRemoved(blocks, a, b - 1, fs),
                    AddedUids(blocks[b - 1], fs(b - 1)), RemovedUids(blocks[b - 1], fs(b - 1)));
    }
  }

  /** Where one UID stands after a replay and after one that adds and removes less. */
  ghost predicate SameFate(u: nat, removed: set<nat>, fewerAdded: set<nat>, fewerRemoved: set<nat>) {
    if u in removed then u !in fewerAdded || u in fewerRemoved else u in fewerAdded
  }

  /** Two such replays agree exactly when every added UID stands the same. */
  lemma {:induction false} ReplaysAgreeIff(live: set<nat>, added: set<nat>, removed: set<nat>, fewerAdded: set<nat>,
                                           fewerRemoved: set<nat>)
    requires fewerAdded <= added && fewerRemoved <= removed && live !! added && removed - fewerRemoved <= added
    ensures live + fewerAdded - fewerRemoved == live + added - removed
       <==> forall u | u in added :: SameFate(u, removed, fewerAdded, fewerRemoved)
  {
    if forall u | u in added :: SameFate(u, removed, fewerAdded, fewerRemoved) {
      assert live + fewerAdded - fewerRemoved == live + added - removed;
    }
    if live + fewerAdded - fewerRemoved == live + added - removed {
      forall u | u in added
        ensures SameFate(u, removed, fewerAdded, fewerRemoved)
      {
        assert u in live + fewerAdded - fewerRemoved <==> u in live + added - removed;
      }
    }
  }

  ghost predicate EndsSame(blocks: seq<StoredBlock>, a: nat, b: nat, full: Filters, cut: Filters, u: nat)
    requires a <= b <= |blocks| && Replayable(blocks)
  {
    SameFate(u, AllRemoved(blocks, a, b, full), AllAdded(blocks, a, b, cut), AllRemoved(blocks, a, b, cut))
  }

  ghost predicate AllEndSame(blocks: seq<StoredBlock>, a: nat, b: nat, full: Filters, cut: Filters)
    requires a <= b <= |blocks| && Replayable(blocks)
  {
    forall u | u in AllAdded(blocks, a, b, full) :: EndsSame(blocks, a, b, full, cut, u)
  }

  // ---- The chain's archive -----------------------------------------------------------------------------

  /** The archived files of the first `n` blocks. */
  ghost predicate Archived(apply: Apply, chain: seq<Block>, start: nat, n: nat, blocks: seq<StoredBlock>) {
    && Runs(apply, chain, n) && |blocks| == n
    && forall i | 0 <= i < n :: FileHolds(apply, chain, start, n, i, blocks[i])
  }

  /** The files of a durable state, up to its tip, are an archive. */
  lemma {:induction false} DiskIsArchived(apply: Apply, chain: seq<Block>, start: nat, d: Disk,
                                          blocks: seq<StoredBlock>)
    requires DiskHolds(apply, chain, start, d) && |blocks| == CommittedBlocks(d, start)
    requires forall i | 0 <= i < |blocks| :: (start + i, blocks[i]) in d.files.Items
    ensures Archived(apply, chain, start, |blocks|, blocks)
  {
    forall i | 0 <= i < |blocks|
      ensures FileHolds(apply, chain, start, |blocks|, i, blocks[i])
    {
      assert (start + i, blocks[i]) in d.files.Items;
      assert FileAt(apply, chain, start, |blocks|, i, d.files);
    }
  }

  lemma {:induction false} FileUids(apply: Apply, chain: seq<Block>, start: nat, n: nat, i: nat, file: StoredBlock)
    requires Laws(apply) && FileHolds(apply, chain, start, n, i, file)
    ensures var created := Step(apply, chain, i).created;
            && |OutputUids(file)| == |file.outputs| == |created|
            && forall k | 0 <= k < |created| :: OutputUids(file)[k] == created[k].ref.uid
  {
    StepNumbersNatives(apply, chain, i);
    DenseOutputUids(Run(apply, chain, i).value, chain[i], Run(apply, chain, i + 1).value, Step(apply, chain, i));
    assert OutputUids(file) == OutputUids(Step(apply, chain, i).stored);
  }

  /** A UID belongs to one created output. */
  lemma {:induction false} UidPosition(apply: Apply, chain: seq<Block>, start: nat, n: nat, i: nat, k: nat, j: nat,
                                       l: nat)
    requires Laws(apply) && ValidChain(chain, start) && Runs(apply, chain, n) && i < n && j < n
    requires Runs(apply, chain, i + 1) && Runs(apply, chain, j + 1)
    requires k < |Step(apply, chain, i).created| && l < |Step(apply, chain, j).created|
    requires Step(apply, chain, i).created[k].ref.uid == Step(apply, chain, j).created[l].ref.uid
    ensures i == j && k == l
  {
    UidCountsNativesBefore(apply, chain, n, i, k);
    UidCountsNativesBefore(apply, chain, n, j, l);
    CreatedIsIndexed(apply, chain, start, n, i, k);
    CreatedIsIndexed(apply, chain, start, n, j, l);
    StepChangesLive(apply, chain, start, i);
    StepChangesLive(apply, chain, start, j);
    assert ValidAt(chain, start, i) && ValidAt(chain, start, j);
  }

  /** Every stored spend names an output created at its creation height, and no later. */
  lemma {:induction false} SpendOrigin(apply: Apply, chain: seq<Block>, start: nat, j: nat, q: nat)
    returns (i: nat, k: nat)
    requires Laws(apply) && ValidChain(chain, start) && Runs(apply, chain, j + 1)
        && q < |Step(apply, chain, j).stored.spends|
    ensures i <= j && Runs(apply, chain, i + 1) && k < |Step(apply, chain, i).created|
    ensures var c := Step(apply, chain, i).created[k];
            Step(apply, chain, j).stored.spends[q] == StoredSpend(c.ref.uid, start + i)
              && c.outpoint in BlockInputs(chain[j])
  {
    var a := Step(apply, chain, j);
    SpentRecords(apply, chain, start, j);
    SpentIn(a.spent, q);
    i := IndexPosition(apply, chain, start, j + 1, a.spent[q].outpoint);
    k := a.spent[q].ref.outputIndex;
  }

  /** A spend of an indexed output is stored by the block that makes it. */
  lemma {:induction false} SpendIsStored(apply: Apply, chain: seq<Block>, start: nat, n: nat, i: nat, k: nat, j: nat)
    returns (q: nat)
    requires Laws(apply) && ValidChain(chain, start) && Runs(apply, chain, n) && i < n && j < n
    requires Runs(apply, chain, i + 1) && Runs(apply, chain, j + 1) && k < |Step(apply, chain, i).created|
    requires Step(apply, chain, i).created[k].outpoint in BlockInputs(chain[j])
    ensures i <= j && q < |Step(apply, chain, j).stored.spends|
    ensures Step(apply, chain, j).stored.spends[q] == StoredSpend(Step(apply, chain, i).created[k].ref.uid, start + i)
  {
    var c, a := Step(apply, chain, i).created[k], Step(apply, chain, j);
    CreatedIsIndexed(apply, chain, start, n, i, k);
    IndexedWhenSpent(apply, chain, start, n, j, c.outpoint);
    SpentRecords(apply, chain, start, j);
    q := SpentRecordOf(a.spent, c.outpoint);
    StepChangesLive(apply, chain, start, i);
    assert ValidAt(chain, start, i);
    var i' := IndexPosition(apply, chain, start, j + 1, c.outpoint);
  }

  // ---- Omissions on the chain ---------------------------------------------------------------------------

  /** The cut-through filter from height `from` with the tip `tips` gives for each block. */
  function CutAt(start: nat, from: nat, tips: nat -> nat, labels: Option<nat>): Filters {
    (i: nat) => Filter(Some(from), Some(tips(start + i)), false, labels)
  }

  /** One tip for all heights. */
  function Always(tip: nat): nat -> nat {
    (h: nat) => tip
  }

  function Full(labels: Option<nat>): Filters {
    (i: nat) => Filter(None, None, false, labels)
  }

  /** Blocks `a .. b` of an archive, filtered from the height of block `a` with tips the archive covers. */
  ghost predicate CutRange(apply: Apply, chain: seq<Block>, start: nat, n: nat, blocks: seq<StoredBlock>, a: nat,
                           b: nat, tips: nat -> nat)
  {
    && Laws(apply) && ValidChain(chain, start) && Archived(apply, chain, start, n, blocks) && a <= b <= n
    && forall h | start + a <= h < start + b :: tips(h) < start + n
  }

  lemma {:induction false} ArchiveIsReplayable(apply: Apply, chain: seq<Block>, start: nat, n: nat,
                                               blocks: seq<StoredBlock>)
    requires Laws(apply) && Archived(apply, chain, start, n, blocks)
    ensures Replayable(blocks)
  {
    forall i | 0 <= i < |blocks|
      ensures |OutputUids(blocks[i])| == |blocks[i].outputs|
    {
      FileUids(apply, chain, start, n, i, blocks[i]);
    }
  }

  /** A cut-through response omits an output exactly when the chain spends it by the response's tip. */
  lemma {:induction false} OutputOmitted(apply: Apply, chain: seq<Block>, start: nat, n: nat, blocks: seq<StoredBlock>,
                                         a: nat, b: nat, tips: nat -> nat, labels: Option<nat>, i: nat, k: nat)
    requires CutRange(apply, chain, start, n, blocks, a, b, tips) && a <= i < b && k < |blocks[i].outputs|
    ensures Runs(apply, chain, i + 1) && k < |Step(apply, chain, i).created|
    ensures OmitOutput(blocks[i].height, blocks[i].outputs[k], CutAt(start, start + a, tips, labels)(i))
       <==> SpentBy(chain, start, Step(apply, chain, i).created[k].outpoint, tips(start + i))
  {
    FileMarksAreTrue(apply, chain, start, n, i, blocks[i], k, tips(start + i));
    StepChangesLive(apply, chain, start, i);
    assert ValidAt(chain, start, i);
  }

  /** It omits a spend exactly when the spent output is in range and the spend is not above the tip. */
  lemma {:induction false} SpendOmitted(apply: Apply, chain: seq<Block>, start: nat, n: nat, blocks: seq<StoredBlock>,
                                        a: nat, b: nat, tips: nat -> nat, labels: Option<nat>, j: nat, q: nat)
    requires CutRange(apply, chain, start, n, blocks, a, b, tips) && a <= j < b && q < |blocks[j].spends|
    ensures OmitSpend(blocks[j].height, blocks[j].spends[q], CutAt(start, start + a, tips, labels)(j))
       <==> start + j <= tips(start + j) && blocks[j].spends[q].creationHeight >= start + a
  {
    var file := blocks[j];
    assert FileHolds(apply, chain, start, n, j, file);
    StepChangesLive(apply, chain, start, j);
    assert ValidAt(chain, start, j);
  }

  /**
   * Without a tip cut-through omits every output of the range whose spend the archive knows, which are
   * at least those the committed chain spends, and every spend of an output of the range.
   */
  lemma {:induction false} NoTipOmits(apply: Apply, chain: seq<Block>, start: nat, n: nat, i: nat, file: StoredBlock,
                                      k: nat, q: nat, f: Filter)
    requires Laws(apply) && ValidChain(chain, start) && Runs(apply, chain, n) && i < n
        && FileHolds(apply, chain, start, n, i, file)
    requires k < |file.outputs| && q < |file.spends|
    requires f.cutStart.Some? && f.cutTip.None? && !f.filterReuse
    ensures k < |Step(apply, chain, i).created|
    ensures var o := Step(apply, chain, i).created[k].outpoint;
            && (start + i >= f.cutStart.value && SpentBy(chain, start, o, start + n - 1) ==>
                  OmitOutput(file.height, file.outputs[k], f))
            && (OmitOutput(file.height, file.outputs[k], f) ==>
                  start + i >= f.cutStart.value && TrueSpend(chain, start, o, file.outputs[k].spentHeight))
    ensures OmitSpend(file.height, file.spends[q], f) <==> file.spends[q].creationHeight >= f.cutStart.value
  {
    FileMarksAreTrue(apply, chain, start, n, i, file, k, start + n - 1);
    StepChangesLive(apply, chain, start, i);
    assert ValidAt(chain, start, i);
    assert OutputHolds(chain, start, n, Step(apply, chain, i).created[k].outpoint,
                       Step(apply, chain, i).stored.outputs[k], file.outputs[k]);
  }

  /**
   * With one tip for all pages, an output created and spent within reach of it is omitted exactly
   * when its spend is.
   */
  lemma {:induction false} OmittedTogether(apply: Apply, chain: seq<Block>, start: nat, n: nat,
                                           blocks: seq<StoredBlock>, a: nat, b: nat, tip: nat, labels: Option<nat>,
                                           i: nat, k: nat, j: nat, q: nat)
    requires CutRange(apply, chain, start, n, blocks, a, b, Always(tip)) && a <= i < b && a <= j < b
    requires k < |blocks[i].outputs| && q < |blocks[j].spends| && Runs(apply, chain, i + 1)
        && k < |Step(apply, chain, i).created|
    requires Step(apply, chain, i).created[k].outpoint in BlockInputs(chain[j])
    requires blocks[j].spends[q] == StoredSpend(Step(apply, chain, i).created[k].ref.uid, start + i)
    ensures var f := CutAt(start, start + a, Always(tip), labels);
            OmitOutput(blocks[i].height, blocks[i].outputs[k], f(i)) <==>
            OmitSpend(blocks[j].height, blocks[j].spends[q], f(j))
  {
    var o := Step(apply, chain, i).created[k].outpoint;
    OutputOmitted(apply, chain, start, n, blocks, a, b, Always(tip), labels, i, k);
    SpendOmitted(apply, chain, start, n, blocks, a, b, Always(tip), labels, j, q);
    SpentByIff(apply, chain, start, n, i, k, j, tip);
  }

  /** The one block that spends an output decides by when it is spent. */
  lemma {:induction false} SpentByIff(apply: Apply, chain: seq<Block>, start: nat, n: nat, i: nat, k: nat, j: nat,
                                      t: nat)
    requires Laws(apply) && ValidChain(chain, start) && Runs(apply, chain, n) && i < n && Runs(apply, chain, i + 1)
    requires j < |chain| && k < |Step(apply, chain, i).created|
        && Step(apply, chain, i).created[k].outpoint in BlockInputs(chain[j])
    ensures SpentBy(chain, start, Step(apply, chain, i).created[k].outpoint, t) <==> start + j <= t
  {
    var o := Step(apply, chain, i).created[k].outpoint;
    CreatedIsNotCoinbase(apply, chain, start, n, i, k);
    assert TrueSpend(chain, start, o, start + j);
    if g: nat :| start <= g <= t && TrueSpend(chain, start, o, g) {
      SpenderUnique(chain, start, o, g - start, j);
    }
  }

  // ---- The fate of one UID -----------------------------------------------------------------------------------

  lemma {:induction false} AddedFrom(blocks: seq<StoredBlock>, a: nat, b: nat, fs: Filters, u: nat)
    returns (i: nat, k: nat)
    requires a <= b <= |blocks| && Replayable(blocks) && u in AllAdded(blocks, a, b, fs)
    ensures a <= i < b && k < |blocks[i].outputs| && u == OutputUids(blocks[i])[k]
    ensures !OmitOutput(blocks[i].height, blocks[i].outputs[k], fs(i))
  {
    i := b - 1;
    if u in AddedUids(blocks[b - 1], fs(b - 1)) {
      k :| 0 <= k < |blocks[i].outputs| && !OmitOutput(blocks[i].height, blocks[i].outputs[k], fs(i))
        && u == OutputUids(blocks[i])[k];
    } else {
      i, k := AddedFrom(blocks, a, b - 1, fs, u);
    }
  }

  lemma {:induction false} AddedHere(blocks: seq<StoredBlock>, a: nat, b: nat, fs: Filters, i: nat, k: nat)
    requires a <= i < b <= |blocks| && Replayable(blocks) && k < |blocks[i].outputs|
    requires !OmitOutput(blocks[i].height, blocks[i].outputs[k], fs(i))
    ensures OutputUids(blocks[i])[k] in AllAdded(blocks, a, b, fs)
  {
    if i < b - 1 { AddedHere(blocks, a, b - 1, fs, i, k); }
  }

  lemma {:induction false} RemovedFrom(blocks: seq<StoredBlock>, a: nat, b: nat, fs: Filters, u: nat)
    returns (j: nat, q: nat)
    requires a <= b <= |blocks| && u in AllRemoved(blocks, a, b, fs)
    ensures a <= j < b && q < |blocks[j].spends| && u == blocks[j].spends[q].spentUid
    ensures !OmitSpend(blocks[j].height, blocks[j].spends[q], fs(j))
  {
    j := b - 1;
    if u in RemovedUids(blocks[b - 1], fs(b - 1)) {
      q :| 0 <= q < |blocks[j].spends| && !OmitSpend(blocks[j].height, blocks[j].spends[q], fs(j))
        && u == blocks[j].spends[q].spentUid;
    } else {
      j, q := RemovedFrom(blocks, a, b - 1, fs, u);
    }
  }

  lemma {:induction false} RemovedHere(blocks: seq<StoredBlock>, a: nat, b: nat, fs: Filters, j: nat, q: nat)
    requires a <= j < b <= |blocks| && q < |blocks[j].spends|
        && !OmitSpend(blocks[j].height, blocks[j].spends[q], fs(j))
    ensures blocks[j].spends[q].spentUid in AllRemoved(blocks, a, b, fs)
  {
    if j < b - 1 { RemovedHere(blocks, a, b - 1, fs, j, q); }
  }

  /** The outpoint of the `k`-th output of block `i`. */
  ghost function OutpointAt(apply: Apply, chain: seq<Block>, i: nat, k: nat): OutPoint
    requires Runs(apply, chain, i + 1) && k < |Step(apply, chain, i).created|
  {
    Step(apply, chain, i).created[k].outpoint
  }

  /** `u` is the UID of the `k`-th output of block `i`. */
  ghost predicate UidAt(apply: Apply, chain: seq<Block>, i: nat, k: nat, u: nat) {
    Runs(apply, chain, i + 1) && k < |Step(apply, chain, i).created| && Step(apply, chain, i).created[k].ref.uid == u
  }

  lemma {:induction false} AddedIff(apply: Apply, chain: seq<Block>, start: nat, n: nat, blocks: seq<StoredBlock>,
                                    a: nat, b: nat, tips: nat -> nat, labels: Option<nat>, i: nat, k: nat, u: nat)
    requires CutRange(apply, chain, start, n, blocks, a, b, tips) && a <= i < b && UidAt(apply, chain, i, k, u)
    requires Replayable(blocks)
    ensures u in AllAdded(blocks, a, b, Full(labels))
    ensures u in AllAdded(blocks, a, b, CutAt(start, start + a, tips, labels))
       <==> !SpentBy(chain, start, OutpointAt(apply, chain, i, k), tips(start + i))
  {
    FileUids(apply, chain, start, n, i, blocks[i]);
    StepChangesLive(apply, chain, start, i);
    assert OutputHolds(chain, start, n, OutpointAt(apply, chain, i, k), Step(apply, chain, i).stored.outputs[k],
      blocks[i].outputs[k]);
    AddedHere(blocks, a, b, Full(labels), i, k);
    OutputOmitted(apply, chain, start, n, blocks, a, b, tips, labels, i, k);
    var cut := CutAt(start, start + a, tips, labels);
    if !SpentBy(chain, start, OutpointAt(apply, chain, i, k), tips(start + i)) {
      AddedHere(blocks, a, b, cut, i, k);
    }
    if u in AllAdded(blocks, a, b, cut) {
      var j, l := AddedFrom(blocks, a, b, cut, u);
      FileUids(apply, chain, start, n, j, blocks[j]);
      UidPosition(apply, chain, start, n, i, k, j, l);
    }
  }

  /** Whatever removes the UID of an output of block `i` is a spend of that output. */
  lemma {:induction false} RemovedOrigin(apply: Apply, chain: seq<Block>, start: nat, n: nat, blocks: seq<StoredBlock>,
                                         a: nat, b: nat, fs: Filters, u: nat)
    returns (j: nat, q: nat, i: nat, k: nat)
    requires Laws(apply) && ValidChain(chain, start) && Archived(apply, chain, start, n, blocks) && a <= b <= n
    requires u in AllRemoved(blocks, a, b, fs)
    ensures a <= j < b && q < |blocks[j].spends| && u == blocks[j].spends[q].spentUid
    ensures !OmitSpend(blocks[j].height, blocks[j].spends[q], fs(j))
    ensures i <= j && UidAt(apply, chain, i, k, u) && OutpointAt(apply, chain, i, k) in BlockInputs(chain[j])
    ensures blocks[j].spends[q].creationHeight == start + i
  {
    j, q := RemovedFrom(blocks, a, b, fs, u);
    assert FileHolds(apply, chain, start, n, j, blocks[j]);
    i, k := SpendOrigin(apply, chain, start, j, q);
  }

  lemma {:induction false} ReplayInOrder(apply: Apply, chain: seq<Block>, start: nat, n: nat, blocks: seq<StoredBlock>,
                                         a: nat, b: nat, fs: Filters)
    requires Laws(apply) && ValidChain(chain, start) && Archived(apply, chain, start, n, blocks) && a <= b <= n
        && Replayable(blocks)
    ensures InOrder(blocks, a, b, fs)
  {
    forall i | a <= i < b
      ensures AddsNew(blocks, a, i, fs)
    {
      forall u | u in AddedUids(blocks[i], fs(i)) && u in AllRemoved(blocks, a, i, fs)
        ensures false
      {
        FileUids(apply, chain, start, n, i, blocks[i]);
        var k :| 0 <= k < |blocks[i].outputs| && u == OutputUids(blocks[i])[k];
        var j, q, i', k' := RemovedOrigin(apply, chain, start, n, blocks, a, i, fs, u);
        UidPosition(apply, chain, start, n, i, k, i', k');
      }
    }
  }

  lemma {:induction false} RemovedIff(apply: Apply, chain: seq<Block>, start: nat, n: nat, blocks: seq<StoredBlock>,
                                      a: nat, b: nat, tips: nat -> nat, labels: Option<nat>, i: nat, k: nat, u: nat,
                                      j: nat)
    requires CutRange(apply, chain, start, n, blocks, a, b, tips) && a <= i < b && UidAt(apply, chain, i, k, u)
    requires j < |chain| && OutpointAt(apply, chain, i, k) in BlockInputs(chain[j])
    ensures i <= j
    ensures u in AllRemoved(blocks, a, b, Full(labels)) <==> j < b
    ensures u in AllRemoved(blocks, a, b, CutAt(start, start + a, tips, labels))
        <==> j < b && tips(start + j) < start + j
  {
    var full, cut := Full(labels), CutAt(start, start + a, tips, labels);
    CreatedIsNotCoinbase(apply, chain, start, n, i, k);
    SpentAfterCreated(apply, chain, start, n, i, k, j);
    if j < b {
      assert FileHolds(apply, chain, start, n, j, blocks[j]);
      var q := SpendIsStored(apply, chain, start, n, i, k, j);
      SpendOmitted(apply, chain, start, n, blocks, a, b, tips, labels, j, q);
      RemovedHere(blocks, a, b, full, j, q);
      if tips(start + j) < start + j { RemovedHere(blocks, a, b, cut, j, q); }
    }
    if u in AllRemoved(blocks, a, b, full) {
      var j', q, i', k' := RemovedOrigin(apply, chain, start, n, blocks, a, b, full, u);
      UidPosition(apply, chain, start, n, i, k, i', k');
      SpenderUnique(chain, start, OutpointAt(apply, chain, i, k), j, j');
    }
    if u in AllRemoved(blocks, a, b, cut) {
      var j', q, i', k' := RemovedOrigin(apply, chain, start, n, blocks, a, b, cut, u);
      UidPosition(apply, chain, start, n, i, k, i', k');
      SpenderUnique(chain, start, OutpointAt(apply, chain, i, k), j, j');
      SpendOmitted(apply, chain, start, n, blocks, a, b, tips, labels, j, q);
    }
  }

  /** No block before its creation spends an output. */
  lemma {:induction false} SpentAfterCreated(apply: Apply, chain: seq<Block>, start: nat, n: nat, i: nat, k: nat,
                                             j: nat)
    requires Laws(apply) && ValidChain(chain, start) && Runs(apply, chain, n) && i < n && Runs(apply, chain, i + 1)
    requires j < |chain| && k < |Step(apply, chain, i).created|
        && OutpointAt(apply, chain, i, k) in BlockInputs(chain[j])
    ensures i <= j
  {
    if j < i {
      CreatedInBlock(apply, chain, start, i, k);
      CreatedFresh(chain, start, i, OutpointAt(apply, chain, i, k));
      InChainInputs(chain, j, i, OutpointAt(apply, chain, i, k));
    }
  }

  /** The cut-through replay adds and removes less, and only drops removals of what the range creates. */
  lemma {:induction false} CutIsLess(apply: Apply, chain: seq<Block>, start: nat, n: nat, blocks: seq<StoredBlock>,
                                     a: nat, b: nat, tips: nat -> nat, labels: Option<nat>)
    requires CutRange(apply, chain, start, n, blocks, a, b, tips) && Replayable(blocks)
    ensures var full, cut := Full(labels), CutAt(start, start + a, tips, labels);
            && AllAdded(blocks, a, b, cut) <= AllAdded(blocks, a, b, full)
            && AllRemoved(blocks, a, b, cut) <= AllRemoved(blocks, a, b, full)
            && AllRemoved(blocks, a, b, full) - AllRemoved(blocks, a, b, cut) <= AllAdded(blocks, a, b, full)
  {
    var full, cut := Full(labels), CutAt(start, start + a, tips, labels);
    forall u | u in AllAdded(blocks, a, b, cut)
      ensures u in AllAdded(blocks, a, b, full)
    {
      var i, k := AddedFrom(blocks, a, b, cut, u);
      FileUids(apply, chain, start, n, i, blocks[i]);
      AddedIff(apply, chain, start, n, blocks, a, b, tips, labels, i, k, u);
    }
    forall u | u in AllRemoved(blocks, a, b, cut)
      ensures u in AllRemoved(blocks, a, b, full)
    {
      var j, q := RemovedFrom(blocks, a, b, cut, u);
      RemovedHere(blocks, a, b, full, j, q);
    }
    forall u | u in AllRemoved(blocks, a, b, full) && u !in AllRemoved(blocks, a, b, cut)
      ensures u in AllAdded(blocks, a, b, full)
    {
      var j, q, i, k := RemovedOrigin(apply, chain, start, n, blocks, a, b, full, u);
      SpendOmitted(apply, chain, start, n, blocks, a, b, tips, labels, j, q);
      if blocks[j].spends[q].creationHeight < start + a {
        RemovedHere(blocks, a, b, cut, j, q);
      } else {
        AddedIff(apply, chain, start, n, blocks, a, b, tips, labels, i, k, u);
      }
    }
  }

  // ---- When cut-through preserves the live set ---------------------------------------------------------------

  /**
   * The `k`-th output of block `i` is spent by block `j` so that a replay of blocks `a .. b` goes
   * wrong: its spend is omitted though it is not, or it is omitted though its spend is out of range.
   */
  ghost predicate Stray(apply: Apply, chain: seq<Block>, start: nat, a: nat, b: nat, tips: nat -> nat, i: nat, k: nat,
                        j: nat)
  {
    && a <= i < b && Runs(apply, chain, i + 1) && k < |Step(apply, chain, i).created|
    && j < |chain| && OutpointAt(apply, chain, i, k) in BlockInputs(chain[j])
    && if j < b then tips(start + i) < start + j <= tips(start + j) else start + j <= tips(start + i)
  }

  ghost predicate HasStray(apply: Apply, chain: seq<Block>, start: nat, a: nat, b: nat, tips: nat -> nat) {
    exists i, k, j :: Stray(apply, chain, start, a, b, tips, i, k, j)
  }

  /** One UID ends the same in both replays exactly when its output has no stray spend. */
  lemma {:induction false} FateOfUid(apply: Apply, chain: seq<Block>, start: nat, n: nat, blocks: seq<StoredBlock>,
                                     a: nat, b: nat, tips: nat -> nat, labels: Option<nat>, i: nat, k: nat, u: nat)
    requires CutRange(apply, chain, start, n, blocks, a, b, tips) && Replayable(blocks) && a <= i < b
        && UidAt(apply, chain, i, k, u)
    ensures EndsSame(blocks, a, b, Full(labels), CutAt(start, start + a, tips, labels), u)
       <==> !exists j :: Stray(apply, chain, start, a, b, tips, i, k, j)
  {
    var full, cut := Full(labels), CutAt(start, start + a, tips, labels);
    var o := OutpointAt(apply, chain, i, k);
    AddedIff(apply, chain, start, n, blocks, a, b, tips, labels, i, k, u);
    if j :| 0 <= j < |chain| && o in BlockInputs(chain[j]) {
      RemovedIff(apply, chain, start, n, blocks, a, b, tips, labels, i, k, u, j);
      SpentByIff(apply, chain, start, n, i, k, j, tips(start + i));
      CreatedIsNotCoinbase(apply, chain, start, n, i, k);
      forall j' | Stray(apply, chain, start, a, b, tips, i, k, j')
        ensures j' == j
      {
        SpenderUnique(chain, start, o, j, j');
      }
      assert Stray(apply, chain, start, a, b, tips, i, k, j) <==>
        if j < b then tips(start + i) < start + j <= tips(start + j) else start + j <= tips(start + i);
    } else {
      if u in AllRemoved(blocks, a, b, full) {
        var j', q, i', k' := RemovedOrigin(apply, chain, start, n, blocks, a, b, full, u);
        UidPosition(apply, chain, start, n, i, k, i', k');
      }
    }
  }

  /**
   * For any tips the archive covers, replaying the cut-through responses on a set that holds nothing
   * the range creates gives the same set as replaying the full ones, if and only if no output of the
   * range has a stray spend.
   */
  lemma {:induction false} CutThroughIff(apply: Apply, chain: seq<Block>, start: nat, n: nat, blocks: seq<StoredBlock>,
                                         a: nat, b: nat, tips: nat -> nat, labels: Option<nat>, live: set<nat>)
    requires CutRange(apply, chain, start, n, blocks, a, b, tips) && Replayable(blocks)
    requires live !! AllAdded(blocks, a, b, Full(labels))
    ensures Replay(live, blocks, a, b, CutAt(start, start + a, tips, labels))
        == Replay(live, blocks, a, b, Full(labels))
       <==> !HasStray(apply, chain, start, a, b, tips)
  {
    var full, cut := Full(labels), CutAt(start, start + a, tips, labels);
    ReplayInOrder(apply, chain, start, n, blocks, a, b, full);
    ReplayInOrder(apply, chain, start, n, blocks, a, b, cut);
    ReplayAtOnce(live, blocks, a, b, full);
    ReplayAtOnce(live, blocks, a, b, cut);
    CutIsLess(apply, chain, start, n, blocks, a, b, tips, labels);
    var added, removed := AllAdded(blocks, a, b, full), AllRemoved(blocks, a, b, full);
    var fewerAdded, fewerRemoved := AllAdded(blocks, a, b, cut), AllRemoved(blocks, a, b, cut);
    ReplaysAgreeIff(live, added, removed, fewerAdded, fewerRemoved);
    AllFates(apply, chain, start, n, blocks, a, b, tips, labels);
  }

  lemma {:induction false} AllFates(apply: Apply, chain: seq<Block>, start: nat, n: nat, blocks: seq<StoredBlock>,
                                    a: nat, b: nat, tips: nat -> nat, labels: Option<nat>)
    requires CutRange(apply, chain, start, n, blocks, a, b, tips) && Replayable(blocks)
    ensures AllEndSame(blocks, a, b, Full(labels), CutAt(start, start + a, tips, labels))
       <==> !HasStray(apply, chain, start, a, b, tips)
  {
    var full, cut := Full(labels), CutAt(start, start + a, tips, labels);
    forall u | u in AllAdded(blocks, a, b, full) && !HasStray(apply, chain, start, a, b, tips)
      ensures EndsSame(blocks, a, b, full, cut, u)
    {
      var i, k := AddedFrom(blocks, a, b, full, u);
      FileUids(apply, chain, start, n, i, blocks[i]);
      FateOfUid(apply, chain, start, n, blocks, a, b, tips, labels, i, k, u);
    }
    if HasStray(apply, chain, start, a, b, tips) {
      var i: nat, k: nat, j: nat :| Stray(apply, chain, start, a, b, tips, i, k, j);
      var u := Step(apply, chain, i).created[k].ref.uid;
      FateOfUid(apply, chain, start, n, blocks, a, b, tips, labels, i, k, u);
      AddedIff(apply, chain, start, n, blocks, a, b, tips, labels, i, k, u);
      assert u in AllAdded(blocks, a, b, full);
    }
  }

  /** With one tip for all pages, no higher than the last block, cut-through preserves the live set. */
  lemma {:induction false} OneTipPreserves(apply: Apply, chain: seq<Block>, start: nat, n: nat,
                                           blocks: seq<StoredBlock>, a: nat, b: nat, tip: nat, labels: Option<nat>,
                                           live: set<nat>)
    requires CutRange(apply, chain, start, n, blocks, a, b, Always(tip)) && Replayable(blocks) && tip < start + b
    requires live !! AllAdded(blocks, a, b, Full(labels))
    ensures Replay(live, blocks, a, b, CutAt(start, start + a, Always(tip), labels))
        == Replay(live, blocks, a, b, Full(labels))
  {
    CutThroughIff(apply, chain, start, n, blocks, a, b, Always(tip), labels, live);
  }

  /** The tip is `t` for heights below `page` and `later` from there on. */
  function TwoTips(page: nat, t: nat, later: nat): nat -> nat {
    h => if h < page then t else later
  }

  /** An output of the first page is spent on the second, between the two tips. */
  ghost predicate SpentBetween(apply: Apply, chain: seq<Block>, start: nat, a: nat, page: nat, b: nat, t: nat,
                               later: nat)
  {
    exists i, k, j :: a <= i < page && page <= j < b && UidSpentBy(apply, chain, i, k, j) && t < start + j <= later
  }

  ghost predicate UidSpentBy(apply: Apply, chain: seq<Block>, i: nat, k: nat, j: nat) {
    && Runs(apply, chain, i + 1) && k < |Step(apply, chain, i).created|
    && j < |chain| && OutpointAt(apply, chain, i, k) in BlockInputs(chain[j])
  }

  lemma {:induction false} StrayIsBetween(apply: Apply, chain: seq<Block>, start: nat, n: nat, a: nat, page: nat,
                                          b: nat, t: nat, later: nat)
    requires Laws(apply) && ValidChain(chain, start) && Runs(apply, chain, n) && a <= page <= b <= n
        && t <= later < start + b
    ensures HasStray(apply, chain, start, a, b, TwoTips(start + page, t, later))
       <==> SpentBetween(apply, chain, start, a, page, b, t, later)
  {
    var tips := TwoTips(start + page, t, later);
    if HasStray(apply, chain, start, a, b, tips) {
      var i: nat, k: nat, j: nat :| Stray(apply, chain, start, a, b, tips, i, k, j);
      SpentAfterCreated(apply, chain, start, n, i, k, j);
      assert UidSpentBy(apply, chain, i, k, j);
    }
    if SpentBetween(apply, chain, start, a, page, b, t, later) {
      var i: nat, k: nat, j: nat :| a <= i < page && page <= j < b && UidSpentBy(apply, chain, i, k, j)
        && t < start + j <= later;
      assert Stray(apply, chain, start, a, b, tips, i, k, j);
    }
  }

  /**
   * When the tip moves up between two pages, cut-through preserves the live set if and only if no
   * output of the first page is spent on the second at a height between the tips.
   */
  lemma {:induction false} MovingTipIff(apply: Apply, chain: seq<Block>, start: nat, n: nat, blocks: seq<StoredBlock>,
                                        a: nat, page: nat, b: nat, t: nat, later: nat, labels: Option<nat>,
                                        live: set<nat>)
    requires a <= page <= b && t <= later < start + b
    requires CutRange(apply, chain, start, n, blocks, a, b, TwoTips(start + page, t, later)) && Replayable(blocks)
    requires live !! AllAdded(blocks, a, b, Full(labels))
    ensures Replay(live, blocks, a, b, CutAt(start, start + a, TwoTips(start + page, t, later), labels))
         == Replay(live, blocks, a, b, Full(labels))
       <==> !SpentBetween(apply, chain, start, a, page, b, t, later)
  {
    var tips := TwoTips(start + page, t, later);
    CutThroughIff(apply, chain, start, n, blocks, a, b, tips, labels, live);
    StrayIsBetween(apply, chain, start, n, a, page, b, t, later);
  }
}
