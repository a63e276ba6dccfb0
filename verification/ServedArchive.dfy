/** What a server answers from a durable state. */
module ServedArchive {
  import opened Wrappers
  import opened HashPacking
  import opened LightBlock
  import opened Filtering
  import opened Chain
  import opened Ledger
  import opened Storage
  import opened Recovery
  import opened Durability
  import opened Assembly
  import Serving

  // ---- Well-formed chains are indexed completely ---------------------------------------------------

  ghost predicate WellFormedAt(chain: seq<Block>, i: nat)
    requires i < |chain|
  {
    WellFormed(chain[i])
  }

  ghost predicate WellFormedChain(chain: seq<Block>, n: nat)
    requires n <= |chain|
  {
    forall i | 0 <= i < n :: WellFormedAt(chain, i)
  }

  /** Live entries come from below the next height and carry distinct UIDs up to the last one. */
  lemma {:induction false} LiveFits(apply: Apply, chain: seq<Block>, start: nat, n: nat)
    requires Laws(apply) && ValidChain(chain, start) && Runs(apply, chain, n)
    ensures HeightsFit(Live(apply, chain, n), start + n)
    ensures UidsBelow(Live(apply, chain, n), Run(apply, chain, n).value.lastUid)
  {
    LiveIsIndexedUnspent(apply, chain, start, n);
    LastUidCountsNatives(apply, chain, n);
    var live := Live(apply, chain, n);
    forall o | o in live
      ensures live[o].creationHeight <= start + n && live[o].uid <= Run(apply, chain, n).value.lastUid
    {
      var i := IndexPosition(apply, chain, start, n, o);
      UidCountsNativesBefore(apply, chain, n, i, live[o].outputIndex);
    }
    forall o, p | o in live && p in live && live[o].uid == live[p].uid
      ensures o == p
    {
      UidsDistinct(apply, chain, n, o, p);
    }
  }

  ghost predicate ServableStep(apply: Apply, chain: seq<Block>, i: nat) {
    Runs(apply, chain, i + 1) && Servable(Step(apply, chain, i).stored)
  }

  /** The next block of a well-formed chain is applied and assembles to a servable block. */
  lemma {:induction false} NextBlockApplies(apply: Apply, hash: Hasher, chain: seq<Block>, start: nat, n: nat)
    requires Implements(apply, hash) && Laws(apply) && ValidChain(chain, start) && n < |chain|
    requires Runs(apply, chain, n) && WellFormed(chain[n])
    ensures ServableStep(apply, chain, n)
  {
    var m := Run(apply, chain, n).value;
    assert ValidAt(chain, start, n);
    ValidBlockIsOrdered(chain, start, n);
    LiveFits(apply, chain, start, n);
    LastUidCountsNatives(apply, chain, n);
    assert AppliesAt(apply, hash, m, chain[n]);
    WellFormedApplies(hash, m, chain[n]);
  }

  /** Every valid chain of well-formed blocks is indexed to its end. */
  lemma {:induction false} WellFormedChainRuns(apply: Apply, hash: Hasher, chain: seq<Block>, start: nat, n: nat)
    requires Implements(apply, hash) && ValidChain(chain, start) && n <= |chain| && WellFormedChain(chain, n)
    ensures Runs(apply, chain, n)
  {
    if n > 0 {
      WellFormedChainRuns(apply, hash, chain, start, n - 1);
      ProgramIsLawful(apply, hash);
      assert WellFormedAt(chain, n - 1);
      NextBlockApplies(apply, hash, chain, start, n - 1);
    }
  }

  /** Each of its blocks is assembled into a servable one. */
  lemma {:induction false} WellFormedStepServable(apply: Apply, hash: Hasher, chain: seq<Block>, start: nat, n: nat,
                                                  i: nat)
    requires Implements(apply, hash) && ValidChain(chain, start) && n <= |chain| && WellFormedChain(chain, n) && i < n
    ensures ServableStep(apply, chain, i)
  {
    WellFormedChainRuns(apply, hash, chain, start, i);
    ProgramIsLawful(apply, hash);
    assert WellFormedAt(chain, i);
    NextBlockApplies(apply, hash, chain, start, i);
  }

  // ---- Marks do not matter to validity ---------------------------------------------------------------

  lemma {:induction false} MarkedStaysServable(s: StoredBlock, outputs: seq<StoredOutput>)
    requires Servable(s) && |outputs| == |s.outputs|
    ensures Servable(s.(outputs := outputs))
  {
  }

  /** The codec accepts exactly the blocks that pass stored validation. */
  ghost predicate Validates(accepts: StoredBlock -> bool) {
    forall s: StoredBlock :: AcceptsValid(accepts, s)
  }

  ghost predicate AcceptsValid(accepts: StoredBlock -> bool, s: StoredBlock) {
    accepts(s) <==> ValidStored(s)
  }

  /** Behind a validating codec, nothing but the source can stop the indexing of well-formed blocks. */
  lemma {:induction false} WellFormedIsHealthy(apply: Apply, hash: Hasher, chain: seq<Block>, start: nat,
                                               accepts: StoredBlock -> bool)
    requires Implements(apply, hash) && ValidChain(chain, start) && WellFormedChain(chain, |chain|)
        && Validates(accepts)
    ensures Healthy(apply, chain, accepts)
  {
    forall s: StoredBlock, outputs: seq<StoredOutput> | |outputs| == |s.outputs|
      ensures SameVerdict(accepts, s, outputs)
    {
      assert AcceptsValid(accepts, s) && AcceptsValid(accepts, s.(outputs := outputs));
    }
    forall i | 0 <= i < |chain|
      ensures StepAccepted(apply, chain, accepts, i)
    {
      WellFormedStepServable(apply, hash, chain, start, |chain|, i);
      assert AcceptsValid(accepts, Step(apply, chain, i).stored);
    }
  }

  /** In any durable state, every committed block can be served under every filter. */
  lemma {:induction false} ArchiveServes(apply: Apply, hash: Hasher, chain: seq<Block>, start: nat, d: Disk, i: nat,
                                         f: Filter)
    requires Implements(apply, hash) && ValidChain(chain, start) && DiskHolds(apply, chain, start, d)
    requires i < CommittedBlocks(d, start) && WellFormedChain(chain, CommittedBlocks(d, start))
    ensures start + i in d.files
    ensures var r := Derived(hash, d.files[start + i], f); r.Ok? && ValidLight(r.value)
  {
    var n := CommittedBlocks(d, start);
    assert FileAt(apply, chain, start, n, i, d.files);
    WellFormedStepServable(apply, hash, chain, start, n, i);
    MarkedStaysServable(Step(apply, chain, i).stored, d.files[start + i].outputs);
    Serving.EveryFilterServes(hash, d.files[start + i], f);
  }

  // ---- Answers do not depend on the crash history ------------------------------------------------------

  /** The same output to a client under `f`. */
  ghost predicate SameOutput(height: nat, a: StoredOutput, b: StoredOutput, f: Filter) {
    a.key == b.key && OmitOutput(height, a, f) == OmitOutput(height, b, f)
  }

  ghost predicate SameOutputs(height: nat, a: seq<StoredOutput>, b: seq<StoredOutput>, f: Filter) {
    |a| == |b| && forall k | 0 <= k < |a| :: SameOutput(height, a[k], b[k], f)
  }

  lemma {:induction false} SameKept(a: seq<StoredOutput>, b: seq<StoredOutput>, lo: nat, hi: nat, height: nat,
                                    f: Filter)
    requires SameOutputs(height, a, b, f) && lo <= hi <= |a|
    ensures OutputKeys(Keep(a, lo, hi, height, f)) == OutputKeys(Keep(b, lo, hi, height, f))
  {
    if lo < hi {
      SameKept(a, b, lo, hi - 1, height, f);
      assert SameOutput(height, a[hi - 1], b[hi - 1], f);
      var x, y := Keep(a, lo, hi - 1, height, f), Keep(b, lo, hi - 1, height, f);
      if !OmitOutput(height, a[hi - 1], f) {
        assert OutputKeys(x + [a[hi - 1]]) == OutputKeys(x) + [a[hi - 1].key];
        assert OutputKeys(y + [b[hi - 1]]) == OutputKeys(y) + [b[hi - 1].key];
      } else {
        assert x + [] == x && y + [] == y;
      }
    }
  }

  lemma {:induction false} SameGroups(s: StoredBlock, outputs: seq<StoredOutput>, f: Filter, n: nat)
    requires SameOutputs(s.height, s.outputs, outputs, f) && GroupedUpTo(s, n)
    ensures var t := s.(outputs := outputs);
            && GroupedUpTo(t, n)
            && EntriesOf(KeptGroups(s, f, n)) == EntriesOf(KeptGroups(t, f, n))
            && FilteredBitmap(s, f, n) == FilteredBitmap(t, f, n)
  {
    if n > 0 {
      var t := s.(outputs := outputs);
      SameGroups(s, outputs, f, n - 1);
      var g, h := KeptGroup(s, f, n - 1), KeptGroup(t, f, n - 1);
      SameKept(s.outputs, outputs, OutputsBefore(s.tweaks, n - 1), OutputsBefore(s.tweaks, n), s.height, f);
      assert |OutputKeys(g.outputs)| == |OutputKeys(h.outputs)|;
      EntriesAppend(KeptGroups(s, f, n - 1), g);
      EntriesAppend(KeptGroups(t, f, n - 1), h);
    }
  }

  lemma {:induction false} EntriesAppend(groups: seq<Group>, g: Group)
    ensures EntriesOf(groups + (if g.outputs == [] then [] else [g]))
         == EntriesOf(groups) + (if g.outputs == [] then [] else [TweakEntry(|g.outputs|, g.tweak)])
  {
    if g.outputs == [] {
      assert groups + [] == groups;
    }
  }

  /** Two stored blocks that differ in outputs a filter cannot tell apart are served alike. */
  lemma {:induction false} SameAnswer(hash: Hasher, s: StoredBlock, outputs: seq<StoredOutput>, f: Filter)
    requires SameOutputs(s.height, s.outputs, outputs, f)
    ensures Derived(hash, s.(outputs := outputs), f) == Derived(hash, s, f)
  {
    var t := s.(outputs := outputs);
    if !Unfiltered(f) && LayoutError(s).None? {
      SameGroups(s, outputs, f, |s.tweaks|);
      KeptOutputs(s, f, |s.tweaks|);
      KeptOutputs(t, f, |s.tweaks|);
      SameKept(s.outputs, outputs, 0, |s.outputs|, s.height, f);
    }
  }

  /** The filter needs no spend above height `tip`. */
  ghost predicate TipWithin(f: Filter, tip: nat) {
    f.cutStart.Some? ==> f.cutTip.Some? && f.cutTip.value < tip
  }

  /**
   * Whatever crashes and restarts led to them, two durable states that have both committed a block
   * and the filter's tip serve the same answer for it.
   */
  lemma {:induction false} AnswersAgree(apply: Apply, hash: Hasher, chain: seq<Block>, start: nat, d: Disk, e: Disk,
                                        i: nat, f: Filter)
    requires Laws(apply) && ValidChain(chain, start) && DiskHolds(apply, chain, start, d)
        && DiskHolds(apply, chain, start, e)
    requires i < CommittedBlocks(d, start) && i < CommittedBlocks(e, start)
    requires TipWithin(f, start + CommittedBlocks(d, start)) && TipWithin(f, start + CommittedBlocks(e, start))
    ensures start + i in d.files && start + i in e.files
    ensures Derived(hash, d.files[start + i], f) == Derived(hash, e.files[start + i], f)
  {
    assert FileAt(apply, chain, start, CommittedBlocks(d, start), i, d.files);
    assert FileAt(apply, chain, start, CommittedBlocks(e, start), i, e.files);
    var a, b := d.files[start + i], e.files[start + i];
    forall k | 0 <= k < |a.outputs|
      ensures SameOutput(a.height, a.outputs[k], b.outputs[k], f)
    {
      OmittedAlike(apply, chain, start, d, e, i, k, f);
    }
    SameAnswer(hash, a, b.outputs, f);
    assert b == a.(outputs := b.outputs);
  }

  lemma {:induction false} OmittedAlike(apply: Apply, chain: seq<Block>, start: nat, d: Disk, e: Disk, i: nat, k: nat,
                                        f: Filter)
    requires Laws(apply) && ValidChain(chain, start) && DiskHolds(apply, chain, start, d)
        && DiskHolds(apply, chain, start, e)
    requires i < CommittedBlocks(d, start) && i < CommittedBlocks(e, start) && start + i in d.files
        && start + i in e.files
    requires TipWithin(f, start + CommittedBlocks(d, start)) && TipWithin(f, start + CommittedBlocks(e, start))
    requires k < |d.files[start + i].outputs| == |e.files[start + i].outputs|
    ensures SameOutput(d.files[start + i].height, d.files[start + i].outputs[k], e.files[start + i].outputs[k], f)
  {
    assert FileAt(apply, chain, start, CommittedBlocks(d, start), i, d.files);
    assert FileAt(apply, chain, start, CommittedBlocks(e, start), i, e.files);
    var made := Step(apply, chain, i).stored.outputs[k];
    var o := Step(apply, chain, i).created[k].outpoint;
    assert OutputHolds(chain, start, CommittedBlocks(d, start), o, made, d.files[start + i].outputs[k]);
    assert OutputHolds(chain, start, CommittedBlocks(e, start), o, made, e.files[start + i].outputs[k]);
    if f.cutStart.Some? {
      SpentHeightsAreTrue(apply, chain, start, d, i, k, f.cutTip.value);
      SpentHeightsAreTrue(apply, chain, start, e, i, k, f.cutTip.value);
    }
  }
}
