/** A client that follows the pages of a cut-through request ends with the live set of the full chain. */
module ServedPages {
  import opened Wrappers
  import opened Words
  import opened HashPacking
  import opened LightBlock
  import opened Filtering
  import opened Chain
  import opened Ledger
  import opened Storage
  import opened Recovery
  import opened ServedArchive
  import opened CutThrough
  import opened ServedReplay
  import ByteCodec
  import Paging

  type Payload = ByteCodec.Bytes

  /** The identifiers a client decodes from a payload. */
  type PayloadIds = Payload -> set<nat>

  /** Cut-through from `from` to `tip`. */
  function Cut(from: nat, tip: nat, labels: Option<nat>): Filter {
    Filter(Some(from), Some(tip), false, labels)
  }

  // ---- Where payloads come from ---------------------------------------------------------------------

  /** A durable state that has committed both the block at `height` and the filter's tip. */
  ghost predicate HasCommitted(apply: Apply, chain: seq<Block>, start: nat, d: Disk, height: nat, f: Filter) {
    && DiskHolds(apply, chain, start, d)
    && start <= height < start + CommittedBlocks(d, start) && TipWithin(f, start + CommittedBlocks(d, start))
    && height in d.files
  }

  /** The payload carries the identifiers of what the durable state `d` serves for `height`. */
  ghost predicate ServedFrom(apply: Apply, hash: Hasher, chain: seq<Block>, start: nat, ids: PayloadIds,
                             d: Disk, height: nat, f: Filter, payload: Payload)
  {
    && HasCommitted(apply, chain, start, d, height, f)
    && Derived(hash, d.files[height], f).Ok? && ids(payload) == ResponseIds(hash, d.files[height], f)
  }

  ghost predicate SomeStateServes(apply: Apply, hash: Hasher, chain: seq<Block>, start: nat, ids: PayloadIds,
                                  height: nat, f: Filter, payload: Payload)
  {
    exists d :: ServedFrom(apply, hash, chain, start, ids, d, height, f, payload)
  }

  /** Each payload comes from some durable state, not necessarily all from the same. */
  ghost predicate Served(apply: Apply, hash: Hasher, chain: seq<Block>, start: nat, ids: PayloadIds,
                         from: nat, f: Filter, payloads: seq<Payload>)
  {
    forall i | 0 <= i < |payloads| :: ServedAt(apply, hash, chain, start, ids, from, f, payloads, i)
  }

  ghost predicate ServedAt(apply: Apply, hash: Hasher, chain: seq<Block>, start: nat, ids: PayloadIds,
                           from: nat, f: Filter, payloads: seq<Payload>, i: nat)
    requires i < |payloads|
  {
    SomeStateServes(apply, hash, chain, start, ids, from + i, f, payloads[i])
  }

  /** What a reader answers for a height comes from some durable state. */
  ghost predicate ReadsServed(apply: Apply, hash: Hasher, chain: seq<Block>, start: nat, ids: PayloadIds, f: Filter,
                              archive: Paging.Archive)
  {
    forall h: nat | archive(h).Ok? :: SomeStateServes(apply, hash, chain, start, ids, h, f, archive(h).value)
  }

  lemma {:induction false} ReadIsServed(apply: Apply, hash: Hasher, chain: seq<Block>, start: nat, ids: PayloadIds,
                                        from: nat, f: Filter, archive: Paging.Archive, payloads: seq<Payload>)
    requires ReadsServed(apply, hash, chain, start, ids, f, archive) && Paging.Payloads(archive, from, payloads)
    ensures Served(apply, hash, chain, start, ids, from, f, payloads)
  {
    forall i | 0 <= i < |payloads|
      ensures ServedAt(apply, hash, chain, start, ids, from, f, payloads, i)
    {
      assert Paging.PayloadAt(archive, from, payloads, i);
      assert archive(from + i).Ok?;
    }
  }

  /** Whichever durable state a payload comes from, it carries the same identifiers. */
  lemma {:induction false} SameFromEveryState(apply: Apply, hash: Hasher, chain: seq<Block>, start: nat,
                                              ids: PayloadIds, d: Disk, blocks: seq<StoredBlock>, n: nat, f: Filter,
                                              payload: Payload)
    requires Laws(apply) && ValidChain(chain, start) && DiskHolds(apply, chain, start, d)
    requires CommittedFiles(start, d, blocks) && n < |blocks| && TipWithin(f, start + |blocks|)
    requires SomeStateServes(apply, hash, chain, start, ids, start + n, f, payload)
    ensures ids(payload) == ResponseIds(hash, blocks[n], f)
  {
    var e :| ServedFrom(apply, hash, chain, start, ids, e, start + n, f, payload);
    assert (start + n, blocks[n]) in d.files.Items;
    SameIds(apply, hash, chain, start, d, e, n, f);
  }

  lemma {:induction false} SameIds(apply: Apply, hash: Hasher, chain: seq<Block>, start: nat, d: Disk, e: Disk, n: nat,
                                   f: Filter)
    requires Laws(apply) && ValidChain(chain, start) && DiskHolds(apply, chain, start, d)
    requires n < CommittedBlocks(d, start) && TipWithin(f, start + CommittedBlocks(d, start))
    requires HasCommitted(apply, chain, start, e, start + n, f)
    ensures start + n in d.files
    ensures ResponseIds(hash, d.files[start + n], f) == ResponseIds(hash, e.files[start + n], f)
  {
    AnswersAgree(apply, hash, chain, start, d, e, n, f);
  }

  /** A payload carries the spends its block's file keeps. */
  lemma {:induction false} PayloadCarries(apply: Apply, hash: Hasher, chain: seq<Block>, start: nat, ids: PayloadIds,
                                          d: Disk, blocks: seq<StoredBlock>, n: nat, f: Filter, payload: Payload)
    requires Implements(apply, hash) && Laws(apply) && ValidChain(chain, start) && DiskHolds(apply, chain, start, d)
    requires CommittedFiles(start, d, blocks) && WellFormedChain(chain, |blocks|)
    requires n < |blocks| && TipWithin(f, start + |blocks|)
    requires SomeStateServes(apply, hash, chain, start, ids, start + n, f, payload)
    ensures ids(payload) == RemovedUids(blocks[n], f)
  {
    SameFromEveryState(apply, hash, chain, start, ids, d, blocks, n, f, payload);
    CommittedFileAnswers(apply, hash, chain, start, d, blocks, f, n);
    RemovedAreServed(hash, blocks[n], f);
  }

  // ---- Replaying payloads --------------------------------------------------------------------------------

  /**
   * The live UIDs after the first `n` payloads: each adds the outputs whose hashes it carries, then
   * removes the identifiers decoded from it.
   */
  ghost function ReplayPayloads(ids: PayloadIds, live: set<nat>, blocks: seq<StoredBlock>, a: nat, fs: Filters,
                                payloads: seq<Payload>, n: nat): set<nat>
    requires n <= |payloads| && a + |payloads| <= |blocks| && Replayable(blocks)
  {
    if n == 0 then live
    else
      ReplayPayloads(ids, live, blocks, a, fs, payloads, n - 1)
      + AddedUids(blocks[a + n - 1], fs(a + n - 1)) - ids(payloads[n - 1])
  }

  /** Each payload carries the spends its block's file keeps. */
  ghost predicate AllCarry(ids: PayloadIds, blocks: seq<StoredBlock>, a: nat, fs: Filters, payloads: seq<Payload>) {
    && a + |payloads| <= |blocks|
    && forall i | 0 <= i < |payloads| :: CarriesAt(ids, blocks, a, fs, payloads, i)
  }

  ghost predicate CarriesAt(ids: PayloadIds, blocks: seq<StoredBlock>, a: nat, fs: Filters, payloads: seq<Payload>,
                            i: nat)
    requires i < |payloads| && a + |payloads| <= |blocks|
  {
    ids(payloads[i]) == RemovedUids(blocks[a + i], fs(a + i))
  }

  lemma {:induction false} ReplayPayloadsIs(ids: PayloadIds, live: set<nat>, blocks: seq<StoredBlock>, a: nat,
                                            fs: Filters, payloads: seq<Payload>, n: nat)
    requires n <= |payloads| && Replayable(blocks) && AllCarry(ids, blocks, a, fs, payloads)
    ensures ReplayPayloads(ids, live, blocks, a, fs, payloads, n) == Replay(live, blocks, a, a + n, fs)
  {
    if n > 0 {
      ReplayPayloadsIs(ids, live, blocks, a, fs, payloads, n - 1);
      assert CarriesAt(ids, blocks, a, fs, payloads, n - 1);
    }
  }

  lemma {:induction false} PageCarries(apply: Apply, hash: Hasher, chain: seq<Block>, start: nat, ids: PayloadIds,
                                       d: Disk, blocks: seq<StoredBlock>, a: nat, f: Filter, fs: Filters,
                                       payloads: seq<Payload>, i: nat)
    requires Implements(apply, hash) && Laws(apply) && ValidChain(chain, start) && DiskHolds(apply, chain, start, d)
    requires CommittedFiles(start, d, blocks) && WellFormedChain(chain, |blocks|)
    requires i < |payloads| && a + |payloads| <= |blocks| && TipWithin(f, start + |blocks|) && fs(a + i) == f
    requires Served(apply, hash, chain, start, ids, start + a, f, payloads)
    ensures CarriesAt(ids, blocks, a, fs, payloads, i)
  {
    assert ServedAt(apply, hash, chain, start, ids, start + a, f, payloads, i);
    PayloadCarries(apply, hash, chain, start, ids, d, blocks, a + i, f, payloads[i]);
  }

  /** The same filter for every block. */
  ghost predicate Everywhere(fs: Filters, f: Filter) {
    forall i :: fs(i) == f
  }

  lemma {:induction false} PagesCarry(apply: Apply, hash: Hasher, chain: seq<Block>, start: nat, ids: PayloadIds,
                                      d: Disk, blocks: seq<StoredBlock>, a: nat, f: Filter, fs: Filters,
                                      payloads: seq<Payload>)
    requires Implements(apply, hash) && Laws(apply) && ValidChain(chain, start) && DiskHolds(apply, chain, start, d)
    requires CommittedFiles(start, d, blocks) && WellFormedChain(chain, |blocks|)
    requires a + |payloads| <= |blocks| && TipWithin(f, start + |blocks|) && Everywhere(fs, f)
    requires Served(apply, hash, chain, start, ids, start + a, f, payloads)
    ensures AllCarry(ids, blocks, a, fs, payloads)
  {
    forall i | 0 <= i < |payloads|
      ensures CarriesAt(ids, blocks, a, fs, payloads, i)
    {
      PageCarries(apply, hash, chain, start, ids, d, blocks, a, f, fs, payloads, i);
    }
  }

  /** The committed files preserve the live set under one tip, the height of block `b - 1`. */
  lemma {:induction false} FilesPreserve(apply: Apply, chain: seq<Block>, start: nat, d: Disk, blocks: seq<StoredBlock>,
                                         a: nat, b: nat, tip: nat, labels: Option<nat>, fs: Filters, live: set<nat>)
    requires fs == CutAt(start, start + a, Always(tip), labels)
    requires Laws(apply) && ValidChain(chain, start) && DiskHolds(apply, chain, start, d)
        && CommittedFiles(start, d, blocks)
    requires a <= b <= |blocks| && tip < start + b
    requires Runs(apply, chain, a) && forall u | u in live :: u <= Run(apply, chain, a).value.lastUid
    ensures Replayable(blocks)
    ensures Everywhere(fs, Cut(start + a, tip, labels))
    ensures Replay(live, blocks, a, b, fs) == Replay(live, blocks, a, b, Full(labels))
  {
    DiskIsArchived(apply, chain, start, d, blocks);
    ArchiveIsReplayable(apply, chain, start, |blocks|, blocks);
    OlderUidsApart(apply, chain, start, |blocks|, blocks, a, b, Full(labels), live);
    OneTipPreserves(apply, chain, start, |blocks|, blocks, a, b, tip, labels, live);
  }

  /** Replaying the payloads is replaying the committed files. */
  lemma {:induction false} PayloadsAreFiles(apply: Apply, hash: Hasher, chain: seq<Block>, start: nat, ids: PayloadIds,
                                            d: Disk, blocks: seq<StoredBlock>, a: nat, f: Filter, fs: Filters,
                                            payloads: seq<Payload>, live: set<nat>)
    requires Implements(apply, hash) && Laws(apply) && ValidChain(chain, start) && DiskHolds(apply, chain, start, d)
    requires CommittedFiles(start, d, blocks) && WellFormedChain(chain, |blocks|) && Replayable(blocks)
    requires a + |payloads| <= |blocks| && TipWithin(f, start + |blocks|) && Everywhere(fs, f)
    requires Served(apply, hash, chain, start, ids, start + a, f, payloads)
    ensures ReplayPayloads(ids, live, blocks, a, fs, payloads, |payloads|)
        == Replay(live, blocks, a, a + |payloads|, fs)
  {
    PagesCarry(apply, hash, chain, start, ids, d, blocks, a, f, fs, payloads);
    ReplayPayloadsIs(ids, live, blocks, a, fs, payloads, |payloads|);
  }

  /** Payloads for blocks `a ..` under one tip, the height of the last of them, preserve the live set. */
  lemma {:induction false} PagesPreserve(apply: Apply, hash: Hasher, chain: seq<Block>, start: nat, ids: PayloadIds,
                                         d: Disk, blocks: seq<StoredBlock>, a: nat, tip: nat, labels: Option<nat>,
                                         fs: Filters, payloads: seq<Payload>, live: set<nat>)
    requires Implements(apply, hash) && Laws(apply) && ValidChain(chain, start) && DiskHolds(apply, chain, start, d)
    requires CommittedFiles(start, d, blocks) && WellFormedChain(chain, |blocks|)
    requires a + |payloads| <= |blocks| && tip + 1 == start + a + |payloads|
    requires fs == CutAt(start, start + a, Always(tip), labels)
    requires Served(apply, hash, chain, start, ids, start + a, Cut(start + a, tip, labels), payloads)
    requires Runs(apply, chain, a) && forall u | u in live :: u <= Run(apply, chain, a).value.lastUid
    ensures Replayable(blocks)
    ensures ReplayPayloads(ids, live, blocks, a, fs, payloads, |payloads|)
         == Replay(live, blocks, a, a + |payloads|, Full(labels))
  {
    FilesPreserve(apply, chain, start, d, blocks, a, a + |payloads|, tip, labels, fs, live);
    PayloadsAreFiles(apply, hash, chain, start, ids, d, blocks, a, Cut(start + a, tip, labels), fs, payloads, live);
  }

  /** An accepted cut-through request from block `a` on, whose tip is the last height it asks for. */
  ghost predicate AsksToTip(q: Paging.Query, limits: Paging.Limits, servedTip: nat, from: nat, tip: nat) {
    && limits.maxCount <= U32_MAX && Paging.Refusal(q, limits, servedTip).None?
    && q.start == from && Paging.CutStart(q) == Some(from)
    && Paging.Or(q.cutTip, servedTip) == tip && Paging.LastAsked(q, limits, servedTip, tip)
  }

  lemma {:induction false} AskedTipIsServed(q: Paging.Query, limits: Paging.Limits, servedTip: nat, from: nat, tip: nat)
    requires AsksToTip(q, limits, servedTip, from, tip)
    ensures from <= tip <= servedTip
  {
    Paging.AcceptedCutTip(q, limits, servedTip);
  }

  /**
   * An accepted cut-through request from its own first height, whose tip is the last height it asks
   * for, and the payloads `Paging.FollowPages` collects for it. Each may come from another durable
   * state, before or after any crash. The client that replays them, from any UIDs older than the
   * request, ends with the live set that replaying everything gives.
   */
  lemma {:induction false} FollowedPagesPreserve(apply: Apply, hash: Hasher, chain: seq<Block>, start: nat,
                                                 ids: PayloadIds, archive: Paging.Archive, d: Disk,
                                                 blocks: seq<StoredBlock>, q: Paging.Query, limits: Paging.Limits,
                                                 servedTip: nat, a: nat, tip: nat, labels: Option<nat>, fs: Filters,
                                                 payloads: seq<Payload>, live: set<nat>)
    requires Implements(apply, hash) && ValidChain(chain, start) && DiskHolds(apply, chain, start, d)
    requires CommittedFiles(start, d, blocks) && WellFormedChain(chain, |blocks|)
    requires AsksToTip(q, limits, servedTip, start + a, tip) && servedTip < start + |blocks|
    requires fs == CutAt(start, start + a, Always(tip), labels)
    requires ReadsServed(apply, hash, chain, start, ids, Cut(start + a, tip, labels), archive)
    requires |payloads| == tip - q.start + 1 && Paging.Payloads(archive, q.start, payloads)
    requires Runs(apply, chain, a) && forall u | u in live :: u <= Run(apply, chain, a).value.lastUid
    ensures a + |payloads| <= |blocks| && Replayable(blocks)
    ensures ReplayPayloads(ids, live, blocks, a, fs, payloads, |payloads|)
         == Replay(live, blocks, a, a + |payloads|, Full(labels))
  {
    AskedTipIsServed(q, limits, servedTip, start + a, tip);
    ProgramIsLawful(apply, hash);
    ReadIsServed(apply, hash, chain, start, ids, q.start, Cut(start + a, tip, labels), archive, payloads);
    PagesPreserve(apply, hash, chain, start, ids, d, blocks, a, tip, labels, fs, payloads, live);
  }
}
