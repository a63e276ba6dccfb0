/** The in-memory map holds only part of what is live; the database rows hold the rest. */
module SpendCache {
  import opened Wrappers
  import opened Chain
  import opened Indexer
  import opened BlockEffect
  import opened Ledger

  /** What is live after `n` blocks but not in memory. */
  ghost function HiddenPart(apply: Apply, chain: seq<Block>, n: nat, m: Memory): Refs
    requires Runs(apply, chain, n)
  {
    Live(apply, chain, n) - m.live.Keys
  }

  /** Memory and its hidden part make up the reference state after `n` blocks. */
  ghost predicate Completes(apply: Apply, chain: seq<Block>, n: nat, m: Memory, hidden: Refs) {
    && Runs(apply, chain, n)
    && hidden.Keys !! m.live.Keys
    && Run(apply, chain, n).value == m.(live := m.live + hidden)
  }

  /** The hidden part comes from the rows committed after `n0` blocks. */
  ghost predicate CacheHolds(apply: Apply, chain: seq<Block>, n0: nat, n: nat, m: Memory) {
    && n0 <= n && Runs(apply, chain, n0) && Runs(apply, chain, n)
    && Completes(apply, chain, n, m, HiddenPart(apply, chain, n, m))
    && HiddenPart(apply, chain, n, m).Keys <= Live(apply, chain, n0).Keys
  }

  /** Blocks `from .. to` spend nothing that is hidden. */
  ghost predicate Resolved(chain: seq<Block>, hidden: Refs, from: nat, to: nat)
    requires to <= |chain|
  {
    forall j | from <= j < to :: hidden.Keys !! BlockInputs(chain[j])
  }

  /** A run starts from the committed UID with an empty cache. */
  lemma {:induction false} RestoredCacheHolds(apply: Apply, chain: seq<Block>, n: nat)
    requires Laws(apply) && Runs(apply, chain, n)
    ensures CacheHolds(apply, chain, n, n, Memory(Run(apply, chain, n).value.lastUid, map[], None))
  {
    var m := Memory(Run(apply, chain, n).value.lastUid, map[], None);
    RunUntracked(apply, chain, n);
    assert Live(apply, chain, n) - {} == Live(apply, chain, n);
    assert m.live + Live(apply, chain, n) == Live(apply, chain, n);
  }

  /** With a resolved hidden part, applying the next block to memory applies it to the reference. */
  lemma {:induction false} CachedBlock(apply: Apply, chain: seq<Block>, start: nat, n: nat, m: Memory, hidden: Refs)
    requires Laws(apply) && ValidChain(chain, start) && n < |chain|
    requires Completes(apply, chain, n, m, hidden) && hidden.Keys !! BlockInputs(chain[n])
    ensures match apply(m, chain[n])
            case Err(e) => Run(apply, chain, n + 1) == Err(e)
            case Ok(r) => Completes(apply, chain, n + 1, r.0, hidden) && Step(apply, chain, n) == r.1
  {
    LiveIsIndexedUnspent(apply, chain, start, n);
    FreshKeys(chain, start, n, BlockOutputs(chain[n]));
    assert hidden.Keys <= Live(apply, chain, n).Keys;
    assert IgnoresHidden(apply, m, hidden, chain[n]);
  }

  // ---- Loading candidates --------------------------------------------------------------------

  /** An unspent row is still live, with the same entry. */
  lemma {:induction false} RowStillLive(apply: Apply, chain: seq<Block>, start: nat, n0: nat, n: nat, j: nat,
                                        o: OutPoint)
    requires Laws(apply) && ValidChain(chain, start) && n0 <= n <= j < |chain| && Runs(apply, chain, n0)
        && Runs(apply, chain, n)
    requires o in Live(apply, chain, n0) && o in BlockInputs(chain[j])
    ensures o in Live(apply, chain, n) && Live(apply, chain, n)[o] == Live(apply, chain, n0)[o]
  {
    LiveIsIndexedUnspent(apply, chain, start, n0);
    LiveIsIndexedUnspent(apply, chain, start, n);
    IndexGrows(apply, chain, start, n0, n, o);
    CoinbaseNeverCreated(chain, start, n0);
    ChainSetsMonotone(chain, n, j);
    if o in ChainInputs(chain, j) { SpentOnce(chain, start, j, o); }
  }

  /** What blocks `n .. to` spend. */
  ghost function SpannedInputs(chain: seq<Block>, n: nat, to: nat): set<OutPoint>
    requires n <= to <= |chain|
  {
    if n == to then {} else SpannedInputs(chain, n, to - 1) + BlockInputs(chain[to - 1])
  }

  lemma {:induction false} SpannedBy(chain: seq<Block>, n: nat, to: nat, o: OutPoint) returns (j: nat)
    requires n <= to <= |chain| && o in SpannedInputs(chain, n, to)
    ensures n <= j < to && o in BlockInputs(chain[j])
  {
    j := to - 1;
    if o !in BlockInputs(chain[to - 1]) { j := SpannedBy(chain, n, to - 1, o); }
  }

  lemma {:induction false} SpansBlock(chain: seq<Block>, n: nat, j: nat, to: nat)
    requires n <= j < to <= |chain|
    ensures BlockInputs(chain[j]) <= SpannedInputs(chain, n, to)
  {
    if j < to - 1 { SpansBlock(chain, n, j, to - 1); }
  }

  lemma {:induction false} SpannedBySlice(chain: seq<Block>, n: nat, decoded: seq<Block>, count: nat)
    requires count <= |decoded| && n + |decoded| <= |chain| && decoded == chain[n..n + |decoded|]
    ensures SpannedInputs(chain, n, n + count) == ChainInputs(decoded, count)
  {
    if count > 0 { SpannedBySlice(chain, n, decoded, count - 1); }
  }

  /**
   * The candidates loaded for the inputs `ins`: only rows that are among them, and all of those
   * except the coinbase's.
   */
  ghost predicate Loads(ins: set<OutPoint>, rows: Refs, before: Refs, after: Refs) {
    && before.Keys <= after.Keys
    && (forall o | o in before :: after[o] == before[o])
    && (forall o | o in after && o !in before :: o in rows && after[o] == rows[o] && o in ins)
    && (forall o | o in ins && o in rows && o != COINBASE :: o in after)
  }

  lemma {:induction false} LoadedCache(apply: Apply, chain: seq<Block>, start: nat, n0: nat, n: nat, to: nat, m: Memory,
                                       after: Refs)
    requires Laws(apply) && ValidChain(chain, start) && n <= to <= |chain| && CacheHolds(apply, chain, n0, n, m)
    requires Loads(SpannedInputs(chain, n, to), Live(apply, chain, n0), m.live, after)
    ensures var m' := m.(live := after);
            && CacheHolds(apply, chain, n0, n, m')
            && Resolved(chain, HiddenPart(apply, chain, n, m'), n, to)
  {
    var live, rows := Live(apply, chain, n), Live(apply, chain, n0);
    var m' := m.(live := after);
    var hidden := HiddenPart(apply, chain, n, m');
    forall o | o in after
      ensures o in live && live[o] == after[o]
    {
      if o !in m.live {
        var j := SpannedBy(chain, n, to, o);
        RowStillLive(apply, chain, start, n0, n, j, o);
      }
    }
    assert after + hidden == live;
    CoinbaseNeverCreated(chain, start, n);
    LiveIsIndexedUnspent(apply, chain, start, n);
    forall j | n <= j < to
      ensures hidden.Keys !! BlockInputs(chain[j])
    {
      SpansBlock(chain, n, j, to);
    }
  }

  // ---- Dropping candidates ---------------------------------------------------------------------

  /** Candidates that were rows can be dropped again: the rows still hold them. */
  lemma {:induction false} EvictedCache(apply: Apply, chain: seq<Block>, n0: nat, n: nat, m: Memory, hidden: Refs,
                                        cached: set<OutPoint>)
    requires n0 <= n && Runs(apply, chain, n0) && Completes(apply, chain, n, m, hidden)
    requires hidden.Keys <= Live(apply, chain, n0).Keys && cached <= Live(apply, chain, n0).Keys
    ensures CacheHolds(apply, chain, n0, n, m.(live := m.live - cached))
  {
    var live := Live(apply, chain, n);
    var kept := m.live - cached;
    assert kept + (live - kept.Keys) == live;
  }
}
