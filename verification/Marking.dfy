/** The marks of a flush window bring every file up to the window's last block. */
module Marking {
  import opened Wrappers
  import opened Words
  import opened LightBlock
  import opened Chain
  import opened Indexer
  import opened BlockEffect
  import opened Ledger
  import opened Storage
  import opened Recovery

  // ---- The marks a window produces --------------------------------------------------------

  function BlockMarks(a: Applied): (marks: seq<Mark>)
    ensures |marks| == |a.spent|
  {
    seq(|a.spent|, k requires 0 <= k < |a.spent| =>
      Mark(a.spent[k].ref.creationHeight, a.spent[k].ref.outputIndex, a.spent[k].spentHeight))
  }

  function WindowMarks(pending: seq<Applied>, n: nat): seq<Mark>
    requires n <= |pending|
  {
    if n == 0 then [] else WindowMarks(pending, n - 1) + BlockMarks(pending[n - 1])
  }

  ghost predicate StepIs(apply: Apply, chain: seq<Block>, i: nat, a: Applied) {
    Runs(apply, chain, i + 1) && a == Step(apply, chain, i)
  }

  /** `pending` is what the reference indexer produces for the blocks from `n0` on. */
  ghost predicate PendingIs(apply: Apply, chain: seq<Block>, n0: nat, pending: seq<Applied>) {
    && Runs(apply, chain, n0 + |pending|)
    && forall j | 0 <= j < |pending| :: StepIs(apply, chain, n0 + j, pending[j])
  }

  /** The mark names `o`'s entry and its true spent height. */
  ghost predicate MarkNames(chain: seq<Block>, start: nat, index: Refs, o: OutPoint, m: Mark) {
    && o in index
    && index[o].creationHeight == m.creationHeight && index[o].outputIndex == m.outputIndex
    && TrueSpend(chain, start, o, m.spentHeight)
  }

  ghost predicate MarkTrue(chain: seq<Block>, start: nat, index: Refs, m: Mark) {
    exists o :: MarkNames(chain, start, index, o, m)
  }

  ghost predicate MarksTrue(chain: seq<Block>, start: nat, index: Refs, marks: seq<Mark>) {
    forall q | 0 <= q < |marks| :: MarkTrue(chain, start, index, marks[q])
  }

  ghost predicate Marked(chain: seq<Block>, start: nat, index: Refs, marks: seq<Mark>, o: OutPoint) {
    exists q :: 0 <= q < |marks| && MarkNames(chain, start, index, o, marks[q])
  }

  /** Every indexed output spent between blocks `n0` and `n` is marked. */
  ghost predicate MarksComplete(chain: seq<Block>, start: nat, index: Refs, n0: nat, n: nat, marks: seq<Mark>)
    requires n0 <= n <= |chain|
  {
    forall o | o in index && o in ChainInputs(chain, n) && o !in ChainInputs(chain, n0) ::
      Marked(chain, start, index, marks, o)
  }

  lemma {:induction false} MarkedMonotone(chain: seq<Block>, start: nat, index: Refs, a: seq<Mark>, b: seq<Mark>,
                                          o: OutPoint)
    requires Marked(chain, start, index, a, o) || Marked(chain, start, index, b, o)
    ensures Marked(chain, start, index, a + b, o)
  {
    if Marked(chain, start, index, a, o) {
      var q :| 0 <= q < |a| && MarkNames(chain, start, index, o, a[q]);
      assert (a + b)[q] == a[q];
    } else {
      var q :| 0 <= q < |b| && MarkNames(chain, start, index, o, b[q]);
      assert (a + b)[|a| + q] == b[q];
    }
  }

  /** The marks of block `j` are true and cover the indexed outputs it spends. */
  lemma {:induction false} BlockMarksExact(apply: Apply, chain: seq<Block>, start: nat, n: nat, j: nat)
    requires Laws(apply) && ValidChain(chain, start) && Runs(apply, chain, n) && j < n && Runs(apply, chain, j + 1)
    ensures var index, marks := Index(apply, chain, n), BlockMarks(Step(apply, chain, j));
            && MarksTrue(chain, start, index, marks)
            && forall o | o in index && o in BlockInputs(chain[j]) :: Marked(chain, start, index, marks, o)
  {
    var index, a := Index(apply, chain, n), Step(apply, chain, j);
    var marks := BlockMarks(a);
    SpentRecords(apply, chain, start, j);
    forall q | 0 <= q < |a.spent|
      ensures MarkNames(chain, start, index, a.spent[q].outpoint, marks[q])
    {
      SpentIn(a.spent, q);
      IndexGrows(apply, chain, start, j + 1, n, a.spent[q].outpoint);
    }
    forall o | o in index && o in BlockInputs(chain[j])
      ensures Marked(chain, start, index, marks, o)
    {
      IndexedWhenSpent(apply, chain, start, n, j, o);
      var q := SpentRecordOf(a.spent, o);
      assert MarkNames(chain, start, index, o, marks[q]);
    }
  }

  lemma {:induction false} WindowMarksExact(apply: Apply, chain: seq<Block>, start: nat, n0: nat, pending: seq<Applied>,
                                            n: nat)
    requires Laws(apply) && ValidChain(chain, start) && PendingIs(apply, chain, n0, pending) && n <= |pending|
    ensures var index, marks := Index(apply, chain, n0 + |pending|), WindowMarks(pending, n);
            MarksTrue(chain, start, index, marks) && MarksComplete(chain, start, index, n0, n0 + n, marks)
  {
    if n > 0 {
      var j := n0 + (n - 1);
      WindowMarksExact(apply, chain, start, n0, pending, n - 1);
      assert StepIs(apply, chain, n0 + (n - 1), pending[n - 1]);
      BlockMarksExact(apply, chain, start, n0 + |pending|, j);
      var index := Index(apply, chain, n0 + |pending|);
      var a, b := WindowMarks(pending, n - 1), BlockMarks(pending[n - 1]);
      forall o | o in index && o in ChainInputs(chain, n0 + n) && o !in ChainInputs(chain, n0)
        ensures Marked(chain, start, index, a + b, o)
      {
        assert o in ChainInputs(chain, j) || o in BlockInputs(chain[j]);
        MarkedMonotone(chain, start, index, a, b, o);
      }
    }
  }

  // ---- One file under its marks --------------------------------------------------------------

  ghost predicate NameOutputs(marks: seq<Mark>, count: nat) {
    forall q | 0 <= q < |marks| :: marks[q].outputIndex < count
  }

  /** Marks that all name existing outputs succeed; each output ends with one of its marks, if any. */
  lemma {:induction false} MarkOutputsEffect(outputs: seq<StoredOutput>, marks: seq<Mark>, n: nat)
    requires n <= |marks| && NameOutputs(marks, |outputs|)
    ensures MarkOutputs(outputs, marks, n).Ok?
    ensures forall k | 0 <= k < |outputs| ::
      MarkOutputs(outputs, marks, n).value[k] == LastMark(outputs[k], marks, n, k)
  {
    if n > 0 { MarkOutputsEffect(outputs, marks, n - 1); }
  }

  /** The output at `index` after the last of the first `n` marks that name it. */
  ghost function LastMark(output: StoredOutput, marks: seq<Mark>, n: nat, index: nat): (r: StoredOutput)
    requires n <= |marks|
    ensures r == output.(spentHeight := r.spentHeight)
  {
    if n == 0 then output
    else if marks[n - 1].outputIndex == index then output.(spentHeight := marks[n - 1].spentHeight)
    else LastMark(output, marks, n - 1, index)
  }

  /** The mark an output ends with; `-1` when none names it. */
  lemma {:induction false} LastMarkOf(output: StoredOutput, marks: seq<Mark>, n: nat, index: nat) returns (q: int)
    requires n <= |marks|
    ensures -1 <= q < n
    ensures q >= 0 ==> marks[q].outputIndex == index
    ensures q >= 0 ==> LastMark(output, marks, n, index) == output.(spentHeight := marks[q].spentHeight)
    ensures q < 0 ==> LastMark(output, marks, n, index) == output
    ensures q < 0 ==> forall p | 0 <= p < n :: marks[p].outputIndex != index
  {
    q := n - 1;
    if n > 0 && marks[n - 1].outputIndex != index { q := LastMarkOf(output, marks, n - 1, index); }
  }

  lemma {:induction false} MarksForMembers(marks: seq<Mark>, height: nat)
    ensures forall m :: m in MarksFor(marks, height) <==> m in marks && m.creationHeight == height
  {
    if marks != [] {
      MarksForMembers(marks[..|marks| - 1], height);
      assert marks == marks[..|marks| - 1] + [marks[|marks| - 1]];
    }
  }

  /** A true mark at the height of block `i` names one of that block's created outputs. */
  lemma {:induction false} MarkNamesCreated(apply: Apply, chain: seq<Block>, start: nat, n: nat, i: nat, m: Mark)
    requires Laws(apply) && ValidChain(chain, start) && Runs(apply, chain, n) && Runs(apply, chain, i + 1)
    requires MarkTrue(chain, start, Index(apply, chain, n), m) && m.creationHeight == start + i
    ensures m.outputIndex < |Step(apply, chain, i).created|
    ensures TrueSpend(chain, start, Step(apply, chain, i).created[m.outputIndex].outpoint, m.spentHeight)
  {
    var o :| MarkNames(chain, start, Index(apply, chain, n), o, m);
    var j := IndexPosition(apply, chain, start, n, o);
  }

  /** An output of block `i` spent between blocks `m` and `n` has a mark at its own position. */
  lemma {:induction false} CreatedHasMark(apply: Apply, chain: seq<Block>, start: nat, n0: nat, n: nat, i: nat, k: nat,
                                          marks: seq<Mark>)
    returns (q: nat)
    requires Laws(apply) && ValidChain(chain, start) && Runs(apply, chain, n) && Runs(apply, chain, i + 1) && i < n
        && n0 <= n
    requires MarksComplete(chain, start, Index(apply, chain, n), n0, n, marks)
    requires k < |Step(apply, chain, i).created|
    requires Step(apply, chain, i).created[k].outpoint in ChainInputs(chain, n)
    requires Step(apply, chain, i).created[k].outpoint !in ChainInputs(chain, n0)
    ensures q < |marks| && marks[q].creationHeight == start + i && marks[q].outputIndex == k
  {
    var o := Step(apply, chain, i).created[k].outpoint;
    CreatedIsIndexed(apply, chain, start, n, i, k);
    var index := Index(apply, chain, n);
    assert Marked(chain, start, index, marks, o);
    q :| 0 <= q < |marks| && MarkNames(chain, start, index, o, marks[q]);
    StepChangesLive(apply, chain, start, i);
    assert ValidAt(chain, start, i);
  }

  /** The marks for output `k` name `o`'s true spent height; there is one if `o` is spent after block `n0`. */
  ghost predicate Covers(chain: seq<Block>, start: nat, n0: nat, n: nat, o: OutPoint, marks: seq<Mark>, k: nat)
    requires n0 <= n <= |chain|
  {
    && (forall q | 0 <= q < |marks| && marks[q].outputIndex == k :: TrueSpend(chain, start, o, marks[q].spentHeight))
    && (o in ChainInputs(chain, n) && o !in ChainInputs(chain, n0) ==>
          exists q :: 0 <= q < |marks| && marks[q].outputIndex == k)
  }

  lemma {:induction false} MarkedOutputHolds(chain: seq<Block>, start: nat, n0: nat, m: nat, n: nat, o: OutPoint,
                                             made: StoredOutput, got: StoredOutput, marks: seq<Mark>, k: nat)
    requires n0 <= m <= n <= |chain| && start + |chain| <= U32_MAX
    requires OutputHolds(chain, start, m, o, made, got) && Covers(chain, start, n0, n, o, marks, k)
    ensures OutputHolds(chain, start, n, o, made, LastMark(got, marks, |marks|, k))
  {
    var q := LastMarkOf(got, marks, |marks|, k);
    ChainSetsMonotone(chain, n0, m);
  }

  lemma {:induction false} OwnMarksCover(apply: Apply, chain: seq<Block>, start: nat, n0: nat, n: nat, i: nat, k: nat,
                                         marks: seq<Mark>)
    requires Laws(apply) && ValidChain(chain, start) && Runs(apply, chain, n) && n0 <= n && i < n
    requires MarksTrue(chain, start, Index(apply, chain, n), marks)
    requires MarksComplete(chain, start, Index(apply, chain, n), n0, n, marks)
    requires Runs(apply, chain, i + 1) && k < |Step(apply, chain, i).created|
    ensures Covers(chain, start, n0, n, Step(apply, chain, i).created[k].outpoint, MarksFor(marks, start + i), k)
  {
    var o, own := Step(apply, chain, i).created[k].outpoint, MarksFor(marks, start + i);
    MarksForMembers(marks, start + i);
    forall q | 0 <= q < |own| && own[q].outputIndex == k
      ensures TrueSpend(chain, start, o, own[q].spentHeight)
    {
      assert own[q] in own;
      MarkNamesCreated(apply, chain, start, n, i, own[q]);
    }
    if o in ChainInputs(chain, n) && o !in ChainInputs(chain, n0) {
      var q := CreatedHasMark(apply, chain, start, n0, n, i, k, marks);
      assert marks[q] in own;
    }
  }

  lemma {:induction false} OwnMarksNameOutputs(apply: Apply, chain: seq<Block>, start: nat, n: nat, i: nat,
                                               marks: seq<Mark>)
    requires Laws(apply) && ValidChain(chain, start) && Runs(apply, chain, n) && Runs(apply, chain, i + 1)
    requires MarksTrue(chain, start, Index(apply, chain, n), marks)
    ensures NameOutputs(MarksFor(marks, start + i), |Step(apply, chain, i).created|)
  {
    var own := MarksFor(marks, start + i);
    MarksForMembers(marks, start + i);
    forall q | 0 <= q < |own|
      ensures own[q].outputIndex < |Step(apply, chain, i).created|
    {
      assert own[q] in own;
      MarkNamesCreated(apply, chain, start, n, i, own[q]);
    }
  }

  /**
   * Marking a file that holds the spends up to block `m` gives one that holds them up to `n`,
   * when the marks are true and cover the spends from block `n0 <= m` on.
   */
  lemma {:induction false} MarkedFileHolds(apply: Apply, chain: seq<Block>, start: nat, n0: nat, m: nat, n: nat, i: nat,
                                           file: StoredBlock, marks: seq<Mark>)
    requires Laws(apply) && ValidChain(chain, start) && Runs(apply, chain, n) && n0 <= m <= n && i < n
    requires MarksTrue(chain, start, Index(apply, chain, n), marks)
    requires MarksComplete(chain, start, Index(apply, chain, n), n0, n, marks)
    requires FileHolds(apply, chain, start, m, i, file)
    ensures var r := MarkFile(file, MarksFor(marks, start + i));
            r.Ok? && FileHolds(apply, chain, start, n, i, r.value)
  {
    var a, own := Step(apply, chain, i), MarksFor(marks, start + i);
    OwnMarksNameOutputs(apply, chain, start, n, i, marks);
    MarkOutputsEffect(file.outputs, own, |own|);
    var marked := MarkFile(file, own).value;
    forall k | 0 <= k < |a.created|
      ensures OutputHolds(chain, start, n, a.created[k].outpoint, a.stored.outputs[k], marked.outputs[k])
    {
      OwnMarksCover(apply, chain, start, n0, n, i, k, marks);
      MarkedOutputHolds(chain, start, n0, m, n, a.created[k].outpoint, a.stored.outputs[k], file.outputs[k], own, k);
    }
  }

  /** A block just written holds its own outputs unspent before it. */
  lemma {:induction false} NewFileHolds(apply: Apply, chain: seq<Block>, start: nat, i: nat)
    requires Laws(apply) && ValidChain(chain, start) && Runs(apply, chain, i + 1)
    ensures FileHolds(apply, chain, start, i, i, Step(apply, chain, i).stored)
  {
    var a := Step(apply, chain, i);
    StepChangesLive(apply, chain, start, i);
    forall k | 0 <= k < |a.created|
      ensures OutputHolds(chain, start, i, a.created[k].outpoint, a.stored.outputs[k], a.stored.outputs[k])
    {
      CreatedInBlock(apply, chain, start, i, k);
      CreatedFresh(chain, start, i, a.created[k].outpoint);
    }
    assert a.stored == a.stored.(outputs := a.stored.outputs);
  }
}
