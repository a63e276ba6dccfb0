/** The archive files and the outpoint database, with every state that was ever durable. */
module Storage {
  import opened Wrappers
  import opened Words
  import opened Seqs
  import opened LightBlock
  import opened Chain
  import opened Indexer
  import opened BlockEffect

  datatype IndexTip = IndexTip(height: nat, hash: BlockHash, lastUid: nat)

  datatype ManifestTip = ManifestTip(height: nat, hash: BlockHash)

  /** What survives a crash. */
  datatype Disk = Disk(
    startHeight: Option<nat>,
    tip: Option<IndexTip>,
    rows: Refs,
    files: map<nat, StoredBlock>,
    manifest: Option<ManifestTip>)

  const EMPTY_DISK: Disk := Disk(None, None, map[], map[], None)

  datatype StoreError =
    | StartHeightMismatch
    | SpentHeightTooLarge
    | StoredBlockRejected
    | OutputIndexOutside

  /** Output `outputIndex` of the block at `creationHeight` is spent at `spentHeight`. */
  datatype Mark = Mark(creationHeight: nat, outputIndex: nat, spentHeight: nat)

  // ---- Marking as a function ----------------------------------------------------------

  function MarksFor(marks: seq<Mark>, height: nat): seq<Mark> {
    if marks == [] then []
    else
      var last := marks[|marks| - 1];
      MarksFor(marks[..|marks| - 1], height) + (if last.creationHeight == height then [last] else [])
  }

  /** The outputs after the first `n` marks; each must name one of them. */
  function MarkOutputs(outputs: seq<StoredOutput>, marks: seq<Mark>, n: nat): (r: Result<seq<StoredOutput>, StoreError>)
    requires n <= |marks|
    ensures r.Ok? ==> |r.value| == |outputs|
  {
    if n == 0 then Ok(outputs)
    else
      match MarkOutputs(outputs, marks, n - 1)
      case Err(e) => Err(e)
      case Ok(front) =>
        var m := marks[n - 1];
        if m.outputIndex >= |front| then Err(OutputIndexOutside)
        else Ok(front[m.outputIndex := front[m.outputIndex].(spentHeight := m.spentHeight)])
  }

  /** The file after all its marks. */
  function MarkFile(file: StoredBlock, marks: seq<Mark>): Result<StoredBlock, StoreError> {
    match MarkOutputs(file.outputs, marks, |marks|)
    case Err(e) => Err(e)
    case Ok(outputs) => Ok(file.(outputs := outputs))
  }

  /** Some files have received all their marks, the others none; nothing else differs. */
  ghost predicate PartlyMarked(before: Disk, marks: seq<Mark>, after: Disk) {
    && after == before.(files := after.files)
    && after.files.Keys == before.files.Keys
    && forall h | h in before.files ::
         after.files[h] == before.files[h] || MarkFile(before.files[h], MarksFor(marks, h)) == Ok(after.files[h])
  }

  /** Every file has received all its marks. */
  ghost predicate FullyMarked(before: Disk, marks: seq<Mark>, after: Disk) {
    && PartlyMarked(before, marks, after)
    && forall h | h in before.files :: MarkFile(before.files[h], MarksFor(marks, h)) == Ok(after.files[h])
  }

  /** Every file has received all its marks, except those at the heights `rest`, which have none. */
  ghost predicate MarkedExcept(before: Disk, marks: seq<Mark>, after: Disk, rest: set<nat>) {
    && after == before.(files := after.files)
    && after.files.Keys == before.files.Keys
    && forall h | h in before.files ::
         if h in rest then after.files[h] == before.files[h]
         else MarkFile(before.files[h], MarksFor(marks, h)) == Ok(after.files[h])
  }

  ghost predicate JournalPartlyMarked(before: Disk, marks: seq<Mark>, journal: seq<Disk>, start: nat) {
    && start <= |journal|
    && forall i | start <= i < |journal| :: PartlyMarked(before, marks, journal[i])
  }

  lemma {:induction false} MarkedExceptOneLess(before: Disk, marks: seq<Mark>, now: Disk, rest: set<nat>, height: nat,
                                               marked: StoredBlock)
    requires MarkedExcept(before, marks, now, rest) && height in rest && height in before.files
    requires MarkFile(before.files[height], MarksFor(marks, height)) == Ok(marked)
    ensures MarkedExcept(before, marks, now.(files := now.files[height := marked]), rest - {height})
  {
  }

  lemma {:induction false} NothingToMark(file: StoredBlock)
    ensures MarkFile(file, []) == Ok(file)
  {
  }

  lemma {:induction false} MarksForAppend(marks: seq<Mark>, m: Mark, height: nat)
    ensures MarksFor(marks + [m], height)
         == MarksFor(marks, height) + (if m.creationHeight == height then [m] else [])
  {
    assert (marks + [m])[..|marks|] == marks;
  }

  lemma {:induction false} MarkOutputsFail(outputs: seq<StoredOutput>, marks: seq<Mark>, n: nat, larger: nat)
    requires n <= larger <= |marks| && MarkOutputs(outputs, marks, n).Err?
    ensures MarkOutputs(outputs, marks, larger) == MarkOutputs(outputs, marks, n)
  {
    if n < larger { MarkOutputsFail(outputs, marks, n, larger - 1); }
  }

  lemma {:induction false} LeastElement(s: set<nat>) returns (least: nat)
    requires s != {}
    ensures least in s && forall x | x in s :: least <= x
  {
    var x :| x in s;
    var rest := s - {x};
    if rest == {} {
      assert s == {x};
      least := x;
    } else {
      var other := LeastElement(rest);
      least := if other < x then other else x;
      assert forall y | y in s :: y == x || y in rest;
    }
  }

  /** The codec refuses the file before or after its marks. */
  ghost predicate RejectedMark(accepts: StoredBlock -> bool, file: StoredBlock, marks: seq<Mark>) {
    !accepts(file) || match MarkFile(file, marks) case Err(_) => false case Ok(marked) => !accepts(marked)
  }

  /** Why marking can fail: a height out of range, an output index outside its file, or a refused file. */
  ghost predicate MarksRefused(accepts: StoredBlock -> bool, before: Disk, marks: seq<Mark>, e: StoreError) {
    || (e == SpentHeightTooLarge && exists i | 0 <= i < |marks| :: marks[i].spentHeight > U32_MAX)
    || (exists h | h in before.files && MarksFor(marks, h) != [] ::
      MarkFile(before.files[h], MarksFor(marks, h)) == Err(e))
    || (e == StoredBlockRejected
        && exists h | h in before.files && MarksFor(marks, h) != [] ::
          RejectedMark(accepts, before.files[h], MarksFor(marks, h)))
  }

  /** The file has no marks, or both it and the marked file are accepted. */
  ghost predicate AcceptedAt(accepts: StoredBlock -> bool, before: Disk, marks: seq<Mark>, h: nat)
    requires h in before.files
  {
    MarksFor(marks, h) == [] || !RejectedMark(accepts, before.files[h], MarksFor(marks, h))
  }

  /** The files outside `rest` are accepted before and after their marks. */
  ghost predicate AcceptedExcept(accepts: StoredBlock -> bool, before: Disk, marks: seq<Mark>, rest: set<nat>) {
    forall h | h in before.files && h !in rest :: AcceptedAt(accepts, before, marks, h)
  }

  /** What was marked in full gives no reason for refusal. */
  lemma {:induction false} NotRefused(accepts: StoredBlock -> bool, before: Disk, marks: seq<Mark>, after: Disk,
                                      e: StoreError)
    requires FullyMarked(before, marks, after) && AcceptedExcept(accepts, before, marks, {})
    requires forall i | 0 <= i < |marks| :: marks[i].spentHeight <= U32_MAX
    ensures !MarksRefused(accepts, before, marks, e)
  {
    forall h | h in before.files
      ensures AcceptedAt(accepts, before, marks, h)
    {
    }
  }

  // ---- Committing as a function -------------------------------------------------------

  /** The rows after the first `n` blocks of a batch. */
  ghost function CommitRows(rows: Refs, blocks: seq<Applied>, n: nat): Refs
    requires n <= |blocks|
  {
    if n == 0 then rows else Effect(CommitRows(rows, blocks, n - 1), blocks[n - 1].created, blocks[n - 1].spent)
  }

  // ---- The durable store --------------------------------------------------------------

  class DurableStore {
    /** What the block codec accepts when it encodes or decodes. */
    const accepts: StoredBlock -> bool

    var disk: Disk

    /** Every durable state since the store was opened, the first included; a crash leaves one of them. */
    var journal: seq<Disk>

    ghost predicate Valid()
      reads this
    {
      journal != [] && journal[|journal| - 1] == disk
    }

    /** Opens what a previous run left behind. */
    constructor (accepts: StoredBlock -> bool, disk: Disk)
      ensures this.accepts == accepts && this.disk == disk && journal == [disk] && Valid()
    {
      this.accepts, this.disk, this.journal := accepts, disk, [disk];
    }

    /** One atomic durable write. */
    method Write(next: Disk)
      requires Valid()
      modifies this
      ensures Valid() && disk == next && journal == old(journal) + [next]
    {
      disk, journal := next, journal + [next];
    }

    method EnsureMeta(startHeight: nat) returns (r: Result<(), StoreError>)
      requires Valid()
      modifies this
      ensures Valid()
      ensures r.Ok? <==> old(disk).startHeight in {None, Some(startHeight)}
      ensures disk == if r.Ok? then old(disk).(startHeight := Some(startHeight)) else old(disk)
      ensures journal == old(journal) || (r.Ok? && journal == old(journal) + [disk])
    {
      if disk.startHeight.Some? {
        if disk.startHeight.value != startHeight {
          return Err(StartHeightMismatch);
        }
      } else {
        Write(disk.(startHeight := Some(startHeight)));
      }
      r := Ok(());
    }

    /** The rows found for `outpoints`, in their order. */
    method LookupOutpointUids(outpoints: seq<OutPoint>) returns (found: seq<(OutPoint, SpendRef)>)
      ensures forall i | 0 <= i < |found| ::
          found[i].0 in outpoints && found[i].0 in disk.rows && disk.rows[found[i].0] == found[i].1
      ensures forall o | o in outpoints && o in disk.rows :: Offered(found, |found|, o)
    {
      found := [];
      for i := 0 to |outpoints|
        invariant forall j | 0 <= j < |found| ::
          found[j].0 in outpoints && found[j].0 in disk.rows && disk.rows[found[j].0] == found[j].1
        invariant forall j | 0 <= j < i && outpoints[j] in disk.rows :: Offered(found, |found|, outpoints[j])
      {
        if outpoints[i] in disk.rows {
          ghost var before := found;
          found := found + [(outpoints[i], disk.rows[outpoints[i]])];
          assert found[|before|].0 == outpoints[i];
          forall j | 0 <= j < i && outpoints[j] in disk.rows
            ensures Offered(found, |found|, outpoints[j])
          {
            var q :| 0 <= q < |before| && before[q].0 == outpoints[j];
            assert found[q].0 == outpoints[j];
          }
        }
      }
    }

    method WriteBlockBytes(height: nat, block: StoredBlock)
      requires Valid()
      modifies this
      ensures Valid() && disk == old(disk).(files := old(disk).files[height := block])
      ensures journal == old(journal) + [disk]
    {
      Write(disk.(files := disk.files[height := block]));
    }

    /** The manifest is rewritten in place: a crash can leave an unreadable one. */
    method WriteManifest(tip: ManifestTip)
      requires Valid()
      modifies this
      ensures Valid() && disk == old(disk).(manifest := Some(tip))
      ensures journal == old(journal) + [old(disk).(manifest := None), disk]
    {
      Write(disk.(manifest := None));
      Write(disk.(manifest := Some(tip)));
      assert journal == old(journal) + [old(disk).(manifest := None), disk];
    }

    /** One batch: per block its puts, then its deletes; then the tip. */
    method CommitAppliedBlocks(blocks: seq<Applied>, tip: IndexTip)
      requires Valid()
      modifies this
      ensures Valid() && disk == old(disk).(rows := CommitRows(old(disk).rows, blocks, |blocks|), tip := Some(tip))
      ensures journal == old(journal) + [disk]
    {
      var rows := disk.rows;
      for i := 0 to |blocks|
        invariant unchanged(this) && rows == CommitRows(disk.rows, blocks, i)
      {
        rows := PutAndDelete(rows, blocks[i].created, blocks[i].spent);
      }
      Write(disk.(rows := rows, tip := Some(tip)));
    }

    /** Groups the marks by creation height, then rewrites each existing file, lowest height first. */
    method MarkSpentOutputs(marks: seq<Mark>) returns (r: Result<(), StoreError>)
      requires Valid()
      modifies this
      ensures Valid() && old(journal) <= journal && JournalPartlyMarked(old(disk), marks, journal, |old(journal)|)
      ensures disk == old(disk).(files := disk.files)
      ensures r.Ok? ==> FullyMarked(old(disk), marks, disk)
      ensures r.Err? ==> MarksRefused(accepts, old(disk), marks, r.error)
      ensures r.Ok? ==> forall e :: !MarksRefused(accepts, old(disk), marks, e)
    {
      var grouped := GroupMarks(marks);
      if grouped.Err? {
        return Err(grouped.error);
      }
      var byHeight := grouped.value;
      var rest := byHeight.Keys;
      forall h | h in disk.files && h !in byHeight
        ensures MarkFile(disk.files[h], MarksFor(marks, h)) == Ok(disk.files[h])
        ensures AcceptedAt(accepts, disk, marks, h)
      {
        assert GroupAt(marks, byHeight, h);
        NothingToMark(disk.files[h]);
      }
      while rest != {}
        invariant Valid() && old(journal) <= journal && JournalPartlyMarked(old(disk), marks, journal, |old(journal)|)
        invariant MarkedExcept(old(disk), marks, disk, rest) && rest <= byHeight.Keys
        invariant AcceptedExcept(accepts, old(disk), marks, rest)
        decreases rest
      {
        ghost var least := LeastElement(rest);
        var height: nat :| height in rest && forall x | x in rest :: height <= x;
        assert GroupAt(marks, byHeight, height);
        var marked := MarkAtHeight(height, byHeight[height], old(disk), marks, rest, |old(journal)|);
        if marked.Err? {
          return marked;
        }
        rest := rest - {height};
      }
      forall e
        ensures !MarksRefused(accepts, old(disk), marks, e)
      {
        NotRefused(accepts, old(disk), marks, disk, e);
      }
      r := Ok(());
    }

    /** Rewrites the file at `height`, if there is one, with the marks of that height. */
    method MarkAtHeight(height: nat, group: seq<Mark>, ghost before: Disk, ghost marks: seq<Mark>, ghost rest: set<nat>,
                        ghost start: nat)
      returns (r: Result<(), StoreError>)
      requires Valid() && JournalPartlyMarked(before, marks, journal, start)
      requires MarkedExcept(before, marks, disk, rest) && AcceptedExcept(accepts, before, marks, rest)
      requires height in rest && group == MarksFor(marks, height) != []
      modifies this
      ensures Valid() && old(journal) <= journal && JournalPartlyMarked(before, marks, journal, start)
      ensures disk == old(disk).(files := disk.files)
      ensures r.Ok? ==>
        MarkedExcept(before, marks, disk, rest - {height}) && AcceptedExcept(accepts, before, marks, rest - {height})
      ensures r.Err? ==> MarksRefused(accepts, before, marks, r.error)
    {
      if height in disk.files {
        var marked := MarkOneFile(disk.files[height], group);
        if marked.Err? {
          return Err(marked.error);
        }
        MarkedExceptOneLess(before, marks, disk, rest, height, marked.value);
        WriteBlockBytes(height, marked.value);
      }
      r := Ok(());
    }

    /** Decodes, marks and re-encodes one file. */
    method MarkOneFile(file: StoredBlock, marks: seq<Mark>) returns (r: Result<StoredBlock, StoreError>)
      ensures r.Ok? ==> MarkFile(file, marks) == r && !RejectedMark(accepts, file, marks)
      ensures r.Err? ==>
          MarkFile(file, marks) == r || (r.error == StoredBlockRejected && RejectedMark(accepts, file, marks))
    {
      if !accepts(file) {
        return Err(StoredBlockRejected);
      }
      var outputs := file.outputs;
      for i := 0 to |marks|
        invariant MarkOutputs(file.outputs, marks, i) == Ok(outputs)
      {
        var index := marks[i].outputIndex;
        if index >= |outputs| {
          MarkOutputsFail(file.outputs, marks, i + 1, |marks|);
          return Err(OutputIndexOutside);
        }
        assert outputs[index].spentHeight == marks[i].spentHeight ==>
          outputs == outputs[index := outputs[index].(spentHeight := marks[i].spentHeight)];
        if outputs[index].spentHeight != marks[i].spentHeight {
          outputs := outputs[index := outputs[index].(spentHeight := marks[i].spentHeight)];
        }
      }
      if !accepts(file.(outputs := outputs)) {
        return Err(StoredBlockRejected);
      }
      r := Ok(file.(outputs := outputs));
    }
  }

  ghost predicate GroupAt(marks: seq<Mark>, byHeight: map<nat, seq<Mark>>, h: nat) {
    MarksFor(marks, h) == (if h in byHeight then byHeight[h] else []) && (h in byHeight ==> byHeight[h] != [])
  }

  /** The marks of every height that has some, in their order. */
  ghost predicate Groups(marks: seq<Mark>, byHeight: map<nat, seq<Mark>>) {
    forall h :: GroupAt(marks, byHeight, h)
  }

  lemma {:induction false} GroupsNext(marks: seq<Mark>, byHeight: map<nat, seq<Mark>>, m: Mark)
    requires Groups(marks, byHeight)
    ensures var group := if m.creationHeight in byHeight then byHeight[m.creationHeight] else [];
            Groups(marks + [m], byHeight[m.creationHeight := group + [m]])
  {
    var group := if m.creationHeight in byHeight then byHeight[m.creationHeight] else [];
    var all, next := marks + [m], byHeight[m.creationHeight := group + [m]];
    forall h
      ensures GroupAt(all, next, h)
    {
      assert GroupAt(marks, byHeight, h);
      MarksForAppend(marks, m, h);
    }
  }

  method GroupMarks(marks: seq<Mark>) returns (r: Result<map<nat, seq<Mark>>, StoreError>)
    ensures r.Err? ==> r.error == SpentHeightTooLarge && exists i | 0 <= i < |marks| :: marks[i].spentHeight > U32_MAX
    ensures r.Ok? ==> Groups(marks, r.value) && forall i | 0 <= i < |marks| :: marks[i].spentHeight <= U32_MAX
  {
    var byHeight: map<nat, seq<Mark>> := map[];
    for i := 0 to |marks|
      invariant Groups(marks[..i], byHeight)
      invariant forall j | 0 <= j < i :: marks[j].spentHeight <= U32_MAX
    {
      var m := marks[i];
      if m.spentHeight > U32_MAX {
        return Err(SpentHeightTooLarge);
      }
      TakeNext(marks, i + 1);
      GroupsNext(marks[..i], byHeight, m);
      var group := if m.creationHeight in byHeight then byHeight[m.creationHeight] else [];
      byHeight := byHeight[m.creationHeight := group + [m]];
    }
    assert marks[..|marks|] == marks;
    r := Ok(byHeight);
  }

  method PutAndDelete(start: Refs, created: seq<Created>, spent: seq<Spent>) returns (rows: Refs)
    ensures rows == Effect(start, created, spent)
  {
    rows := start;
    for i := 0 to |created|
      invariant rows == start + CreatedMap(created[..i])
    {
      TakeNext(created, i + 1);
      CreatedMapAppend(created[..i], created[i]);
      rows := rows[created[i].outpoint := created[i].ref];
    }
    assert created[..|created|] == created;
    ghost var put := rows;
    for i := 0 to |spent|
      invariant rows == put - SpentSet(spent[..i])
    {
      TakeNext(spent, i + 1);
      SpentSetAppend(spent[..i], spent[i]);
      rows := rows - {spent[i].outpoint};
    }
    assert spent[..|spent|] == spent;
  }
}
