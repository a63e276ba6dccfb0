/** Each durable write of a flush keeps what recovery relies on. */
module Durability {
  import opened Wrappers
  import opened Words
  import opened LightBlock
  import opened Chain
  import opened Indexer
  import opened Ledger
  import opened Storage
  import opened Recovery
  import opened Marking

  ghost predicate Written(a: Applied, files: map<nat, StoredBlock>) {
    a.stored.height in files && files[a.stored.height] == a.stored
  }

  /** The first `n` pending blocks are in their files, nothing marked yet. */
  ghost predicate WrittenUpTo(pending: seq<Applied>, n: nat, files: map<nat, StoredBlock>)
    requires n <= |pending|
  {
    forall j | 0 <= j < n :: Written(pending[j], files)
  }

  lemma {:induction false} StepHeight(apply: Apply, chain: seq<Block>, start: nat, i: nat)
    requires Laws(apply) && ValidChain(chain, start) && Runs(apply, chain, i + 1)
    ensures Step(apply, chain, i).stored.height == start + i
  {
    StepChangesLive(apply, chain, start, i);
    assert ValidAt(chain, start, i);
  }

  /** Writing a block above the tip. */
  lemma {:induction false} WriteKeepsDisk(apply: Apply, chain: seq<Block>, start: nat, d: Disk, height: nat,
                                          block: StoredBlock)
    requires DiskHolds(apply, chain, start, d) && height >= start + CommittedBlocks(d, start)
    ensures DiskHolds(apply, chain, start, d.(files := d.files[height := block]))
  {
    var n, files := CommittedBlocks(d, start), d.files[height := block];
    forall i | 0 <= i < n
      ensures FileAt(apply, chain, start, n, i, files)
    {
      assert FileAt(apply, chain, start, n, i, d.files);
    }
  }

  lemma {:induction false} FileHoldsEarlier(apply: Apply, chain: seq<Block>, start: nat, m: nat, n: nat, i: nat,
                                            file: StoredBlock)
    requires m <= n && FileHolds(apply, chain, start, n, i, file)
    ensures FileHolds(apply, chain, start, m, i, file)
  {
    ChainSetsMonotone(chain, m, n);
    var a := Step(apply, chain, i);
    forall k | 0 <= k < |a.created|
      ensures OutputHolds(chain, start, m, a.created[k].outpoint, a.stored.outputs[k], file.outputs[k])
    {
      assert OutputHolds(chain, start, n, a.created[k].outpoint, a.stored.outputs[k], file.outputs[k]);
    }
  }

  ghost predicate WindowMarked(apply: Apply, chain: seq<Block>, start: nat, n0: nat, n: nat, marks: seq<Mark>) {
    && n0 <= n && Runs(apply, chain, n)
    && MarksTrue(chain, start, Index(apply, chain, n), marks)
    && MarksComplete(chain, start, Index(apply, chain, n), n0, n, marks)
  }

  /** Marking some of the files. */
  lemma {:induction false} MarkingKeepsDisk(apply: Apply, chain: seq<Block>, start: nat, d: Disk, n: nat,
                                            marks: seq<Mark>, e: Disk)
    requires Laws(apply) && ValidChain(chain, start) && DiskHolds(apply, chain, start, d)
    requires WindowMarked(apply, chain, start, CommittedBlocks(d, start), n, marks)
    requires PartlyMarked(d, marks, e)
    ensures DiskHolds(apply, chain, start, e)
  {
    var n0 := CommittedBlocks(d, start);
    forall i | 0 <= i < n0
      ensures FileAt(apply, chain, start, n0, i, e.files)
    {
      assert FileAt(apply, chain, start, n0, i, d.files);
      assert start + i in d.files;
      if e.files[start + i] != d.files[start + i] {
        MarkedFileHolds(apply, chain, start, n0, n0, n, i, d.files[start + i], marks);
        FileHoldsEarlier(apply, chain, start, n0, n, i, e.files[start + i]);
      }
    }
  }

  lemma {:induction false} PendingFileMarked(apply: Apply, chain: seq<Block>, start: nat, n0: nat,
                                             pending: seq<Applied>, marks: seq<Mark>, j: nat,
                                             files: map<nat, StoredBlock>)
    requires Laws(apply) && ValidChain(chain, start) && j < |pending| && StepIs(apply, chain, n0 + j, pending[j])
    requires WindowMarked(apply, chain, start, n0, n0 + |pending|, marks) && Written(pending[j], files)
    ensures start + n0 + j in files
    ensures var r := MarkFile(files[start + n0 + j], MarksFor(marks, start + n0 + j));
            r.Ok? && FileHolds(apply, chain, start, n0 + |pending|, n0 + j, r.value)
  {
    StepHeight(apply, chain, start, n0 + j);
    NewFileHolds(apply, chain, start, n0 + j);
    MarkedFileHolds(apply, chain, start, n0, n0 + j, n0 + |pending|, n0 + j, files[start + (n0 + j)], marks);
  }

  // ---- Marking cannot fail ----------------------------------------------------------------------------

  /** The codec's verdict does not depend on the outputs' contents, only on their number. */
  ghost predicate IgnoresOutputs(accepts: StoredBlock -> bool) {
    forall s: StoredBlock, outputs: seq<StoredOutput> | |outputs| == |s.outputs| :: SameVerdict(accepts, s, outputs)
  }

  ghost predicate SameVerdict(accepts: StoredBlock -> bool, s: StoredBlock, outputs: seq<StoredOutput>) {
    accepts(s.(outputs := outputs)) == accepts(s)
  }

  ghost predicate StepAccepted(apply: Apply, chain: seq<Block>, accepts: StoredBlock -> bool, i: nat) {
    Runs(apply, chain, i + 1) && accepts(Step(apply, chain, i).stored)
  }

  /** The reference runs through the chain, and the codec accepts what it assembles, whatever is marked in it. */
  ghost predicate Healthy(apply: Apply, chain: seq<Block>, accepts: StoredBlock -> bool) {
    IgnoresOutputs(accepts) && forall i | 0 <= i < |chain| :: StepAccepted(apply, chain, accepts, i)
  }

  /** A file that holds is accepted when the reference's block is. */
  lemma {:induction false} HeldFileAccepted(apply: Apply, chain: seq<Block>, start: nat, n: nat, i: nat,
                                            file: StoredBlock, accepts: StoredBlock -> bool)
    requires FileHolds(apply, chain, start, n, i, file) && IgnoresOutputs(accepts)
        && StepAccepted(apply, chain, accepts, i)
    ensures accepts(file)
  {
    assert SameVerdict(accepts, Step(apply, chain, i).stored, file.outputs);
  }

  /** A height with true marks is one of the window's. */
  lemma {:induction false} MarkedHeight(apply: Apply, chain: seq<Block>, start: nat, n: nat, marks: seq<Mark>, h: nat)
    returns (i: nat)
    requires Laws(apply) && ValidChain(chain, start) && Runs(apply, chain, n)
    requires MarksTrue(chain, start, Index(apply, chain, n), marks) && MarksFor(marks, h) != []
    ensures i < n && h == start + i
  {
    MarksForMembers(marks, h);
    var m := MarksFor(marks, h)[0];
    assert m in MarksFor(marks, h);
    var q :| 0 <= q < |marks| && marks[q] == m;
    assert MarkTrue(chain, start, Index(apply, chain, n), marks[q]);
    var o :| MarkNames(chain, start, Index(apply, chain, n), o, m);
    i := IndexPosition(apply, chain, start, n, o);
  }

  /** The file holds the spends up to some block. */
  ghost predicate Held(apply: Apply, chain: seq<Block>, start: nat, i: nat, file: StoredBlock) {
    exists m :: FileHolds(apply, chain, start, m, i, file)
  }

  /** Every file of the window holds, and holds the whole window's spends once marked. */
  lemma {:induction false} WindowFileMarks(apply: Apply, chain: seq<Block>, start: nat, d: Disk, pending: seq<Applied>,
                                           marks: seq<Mark>, i: nat)
    requires Laws(apply) && ValidChain(chain, start) && DiskHolds(apply, chain, start, d)
    requires PendingIs(apply, chain, CommittedBlocks(d, start), pending) && WrittenUpTo(pending, |pending|, d.files)
    requires WindowMarked(apply, chain, start, CommittedBlocks(d, start), CommittedBlocks(d, start) + |pending|, marks)
    requires i < CommittedBlocks(d, start) + |pending|
    ensures start + i in d.files
    ensures Held(apply, chain, start, i, d.files[start + i])
    ensures var r := MarkFile(d.files[start + i], MarksFor(marks, start + i));
            r.Ok? && FileHolds(apply, chain, start, CommittedBlocks(d, start) + |pending|, i, r.value)
  {
    var n0 := CommittedBlocks(d, start);
    var n := n0 + |pending|;
    if i < n0 {
      assert FileAt(apply, chain, start, n0, i, d.files);
      MarkedFileHolds(apply, chain, start, n0, n0, n, i, d.files[start + i], marks);
    } else {
      var j := i - n0;
      assert Written(pending[j], d.files) && StepIs(apply, chain, n0 + j, pending[j]);
      PendingFileMarked(apply, chain, start, n0, pending, marks, j, d.files);
      NewFileHolds(apply, chain, start, i);
      StepHeight(apply, chain, start, i);
      assert FileHolds(apply, chain, start, i, i, d.files[start + i]);
    }
  }

  /** Once all files are marked, they hold the whole window's spends. */
  lemma {:induction false} MarkedFilesHold(apply: Apply, chain: seq<Block>, start: nat, d: Disk, pending: seq<Applied>,
                                           marks: seq<Mark>, e: Disk)
    requires Laws(apply) && ValidChain(chain, start) && DiskHolds(apply, chain, start, d)
    requires PendingIs(apply, chain, CommittedBlocks(d, start), pending) && WrittenUpTo(pending, |pending|, d.files)
    requires WindowMarked(apply, chain, start, CommittedBlocks(d, start), CommittedBlocks(d, start) + |pending|, marks)
    requires FullyMarked(d, marks, e)
    ensures var n := CommittedBlocks(d, start) + |pending|;
            FilesHold(apply, chain, start, n, n, e.files)
  {
    var n := CommittedBlocks(d, start) + |pending|;
    forall i | 0 <= i < n
      ensures FileAt(apply, chain, start, n, i, e.files)
    {
      WindowFileMarks(apply, chain, start, d, pending, marks, i);
    }
  }

  /** When the codec accepts every block of the reference, nothing can refuse the window's marks. */
  lemma {:induction false} MarksNeverRefused(apply: Apply, chain: seq<Block>, start: nat, accepts: StoredBlock -> bool,
                                             d: Disk, pending: seq<Applied>, marks: seq<Mark>, e: StoreError)
    requires Laws(apply) && ValidChain(chain, start) && DiskHolds(apply, chain, start, d)
    requires PendingIs(apply, chain, CommittedBlocks(d, start), pending) && WrittenUpTo(pending, |pending|, d.files)
    requires WindowMarked(apply, chain, start, CommittedBlocks(d, start), CommittedBlocks(d, start) + |pending|, marks)
    requires IgnoresOutputs(accepts) && forall i | 0 <= i < CommittedBlocks(d, start) + |pending| ::
        StepAccepted(apply, chain, accepts, i)
    ensures !MarksRefused(accepts, d, marks, e)
  {
    var n := CommittedBlocks(d, start) + |pending|;
    forall q | 0 <= q < |marks|
      ensures marks[q].spentHeight <= U32_MAX
    {
      assert MarkTrue(chain, start, Index(apply, chain, n), marks[q]);
    }
    forall h | h in d.files && MarksFor(marks, h) != []
      ensures MarkFile(d.files[h], MarksFor(marks, h)).Ok? && !RejectedMark(accepts, d.files[h], MarksFor(marks, h))
    {
      var i := MarkedHeight(apply, chain, start, n, marks, h);
      WindowFileMarks(apply, chain, start, d, pending, marks, i);
      var m: nat :| FileHolds(apply, chain, start, m, i, d.files[h]);
      assert StepAccepted(apply, chain, accepts, i);
      HeldFileAccepted(apply, chain, start, m, i, d.files[h], accepts);
      HeldFileAccepted(apply, chain, start, n, i, MarkFile(d.files[h], MarksFor(marks, h)).value, accepts);
    }
  }

  /** Committing the window's blocks takes the rows to the reference's. */
  lemma {:induction false} CommitReachesLive(apply: Apply, chain: seq<Block>, start: nat, n0: nat,
                                             pending: seq<Applied>, n: nat)
    requires Laws(apply) && ValidChain(chain, start) && Runs(apply, chain, n0)
    requires PendingIs(apply, chain, n0, pending) && n <= |pending| && Runs(apply, chain, n0 + n)
    ensures CommitRows(Live(apply, chain, n0), pending, n) == Live(apply, chain, n0 + n)
  {
    if n > 0 {
      RunsBefore(apply, chain, n0 + (n - 1), n0 + n);
      CommitReachesLive(apply, chain, start, n0, pending, n - 1);
      assert StepIs(apply, chain, n0 + (n - 1), pending[n - 1]);
      StepChangesLive(apply, chain, start, n0 + (n - 1));
    }
  }

  ghost function NewTip(apply: Apply, chain: seq<Block>, start: nat, n: nat): IndexTip
    requires 0 < n <= |chain| && Runs(apply, chain, n)
  {
    IndexTip(start + n - 1, chain[n - 1].hash, Run(apply, chain, n).value.lastUid)
  }

  lemma {:induction false} CommitKeepsDisk(apply: Apply, chain: seq<Block>, start: nat, d: Disk, pending: seq<Applied>)
    requires Laws(apply) && ValidChain(chain, start) && DiskHolds(apply, chain, start, d) && pending != []
    requires PendingIs(apply, chain, CommittedBlocks(d, start), pending)
    requires var n := CommittedBlocks(d, start) + |pending|; FilesHold(apply, chain, start, n, n, d.files)
    ensures var n := CommittedBlocks(d, start) + |pending|;
            var e := d.(rows := CommitRows(d.rows, pending, |pending|), tip := Some(NewTip(apply, chain, start, n)));
            DiskHolds(apply, chain, start, e) && CommittedBlocks(e, start) == n
  {
    CommitReachesLive(apply, chain, start, CommittedBlocks(d, start), pending, |pending|);
  }

  lemma {:induction false} ManifestKeepsDisk(apply: Apply, chain: seq<Block>, start: nat, d: Disk)
    requires DiskHolds(apply, chain, start, d) && CommittedBlocks(d, start) > 0
    ensures DiskHolds(apply, chain, start, d.(manifest := None))
    ensures DiskHolds(apply, chain, start, d.(manifest := Some(ManifestTip(d.tip.value.height, d.tip.value.hash))))
  {
    var n := CommittedBlocks(d, start);
    forall i | 0 <= i < n
      ensures FileAt(apply, chain, start, n, i, d.files)
    {
    }
  }
}
