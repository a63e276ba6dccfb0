/** The estimate of a flush window's memory, and what it amounts to without saturation. */
module MemoryBudget {
  import opened Words
  import opened LightBlock
  import opened Chain
  import opened Indexer
  import opened Ledger
  import opened Marking

  type Usize = n: nat | n <= U64_MAX

  function Saturate(n: nat): Usize {
    if n > U64_MAX then U64_MAX else n
  }

  const RAW_MULTIPLIER: nat := 4
  const PAYLOAD_MULTIPLIER: nat := 2
  const BLOCK_OVERHEAD: nat := 64 * 1024

  function EstimatePendingMemory(rawBytes: nat, payloadBytes: nat, blocks: nat): Usize {
    Saturate(Saturate(Saturate(rawBytes * RAW_MULTIPLIER) + Saturate(payloadBytes * PAYLOAD_MULTIPLIER))
             + Saturate(blocks * BLOCK_OVERHEAD))
  }

  function RawBytes(decoded: seq<Block>): nat {
    if decoded == [] then 0 else RawBytes(decoded[..|decoded| - 1]) + decoded[|decoded| - 1].rawBytes
  }

  function PayloadBytes(total: nat, applied: seq<Applied>, payloadLen: StoredBlock -> nat): nat {
    if applied == [] then total
    else Saturate(PayloadBytes(total, applied[..|applied| - 1], payloadLen)
                  + payloadLen(applied[|applied| - 1].stored))
  }

  // ---- Without saturation -------------------------------------------------------------------------------

  /** The sizes of the raw blocks from `n0` to `n`. */
  ghost function RawSum(chain: seq<Block>, n0: nat, n: nat): nat
    requires n0 <= n <= |chain|
  {
    if n == n0 then 0 else RawSum(chain, n0, n - 1) + chain[n - 1].rawBytes
  }

  /** The sizes of the payloads the reference produces for them. */
  ghost function PayloadSum(apply: Apply, chain: seq<Block>, payloadLen: StoredBlock -> nat, n0: nat, n: nat): nat
    requires n0 <= n && Runs(apply, chain, n)
  {
    if n == n0 then 0
    else PayloadSum(apply, chain, payloadLen, n0, n - 1) + payloadLen(Step(apply, chain, n - 1).stored)
  }

  /** What a window is taken to occupy: four times its raw bytes, twice its payloads, and 64 KiB a block. */
  ghost function WindowMemory(apply: Apply, chain: seq<Block>, payloadLen: StoredBlock -> nat, n0: nat, n: nat): nat
    requires n0 <= n && Runs(apply, chain, n)
  {
    4 * RawSum(chain, n0, n) + 2 * PayloadSum(apply, chain, payloadLen, n0, n) + 0x1_0000 * (n - n0)
  }

  lemma {:induction false} RawBytesAre(chain: seq<Block>, n0: nat, n: nat, decoded: seq<Block>)
    requires n0 <= n && n + |decoded| <= |chain| && decoded == chain[n..n + |decoded|]
    ensures RawSum(chain, n0, n) + RawBytes(decoded) == RawSum(chain, n0, n + |decoded|)
  {
    if decoded != [] {
      var front := decoded[..|decoded| - 1];
      assert front == chain[n..n + |front|];
      RawBytesAre(chain, n0, n, front);
    }
  }

  /** Saturating after every payload is saturating once. */
  lemma {:induction false} PayloadBytesAre(apply: Apply, chain: seq<Block>, payloadLen: StoredBlock -> nat, n0: nat,
                                           n: nat, applied: seq<Applied>, total: nat)
    requires n0 <= n && PendingIs(apply, chain, n, applied) && Runs(apply, chain, n)
    requires total == Saturate(PayloadSum(apply, chain, payloadLen, n0, n))
    ensures PayloadBytes(total, applied, payloadLen)
         == Saturate(PayloadSum(apply, chain, payloadLen, n0, n + |applied|))
  {
    if applied != [] {
      var k := |applied| - 1;
      assert StepIs(apply, chain, n + k, applied[k]);
      PendingPrefix(apply, chain, n, applied, k);
      PayloadBytesAre(apply, chain, payloadLen, n0, n, applied[..k], total);
    }
  }

  lemma {:induction false} PendingPrefix(apply: Apply, chain: seq<Block>, n: nat, applied: seq<Applied>, k: nat)
    requires PendingIs(apply, chain, n, applied) && k <= |applied|
    ensures PendingIs(apply, chain, n, applied[..k]) && PendingIs(apply, chain, n + k, applied[k..])
  {
    RunsBefore(apply, chain, n + k, n + |applied|);
    forall j | 0 <= j < k
      ensures StepIs(apply, chain, n + j, applied[..k][j])
    {
      assert StepIs(apply, chain, n + j, applied[j]);
    }
    forall j | 0 <= j < |applied| - k
      ensures StepIs(apply, chain, n + k + j, applied[k..][j])
    {
      assert StepIs(apply, chain, n + (k + j), applied[k + j]);
    }
  }

  /** The counters of a window's first blocks: raw bytes, and payload bytes up to saturation. */
  ghost predicate Accounted(apply: Apply, chain: seq<Block>, payloadLen: StoredBlock -> nat, n0: nat, n: nat,
                            rawBytes: nat, payloadBytes: nat)
  {
    && n0 <= n && Runs(apply, chain, n) && rawBytes == RawSum(chain, n0, n)
    && payloadBytes == Saturate(PayloadSum(apply, chain, payloadLen, n0, n))
  }

  /** Counting what a chunk adds. */
  lemma {:induction false} ChunkAccounted(apply: Apply, chain: seq<Block>, payloadLen: StoredBlock -> nat, n0: nat,
                                          k: nat, grown: seq<Applied>, rawBytes: nat, chunkBytes: nat,
                                          payloadBytes: nat)
    requires Accounted(apply, chain, payloadLen, n0, n0 + k, rawBytes, payloadBytes)
    requires k <= |grown| && PendingIs(apply, chain, n0, grown)
    requires RawSum(chain, n0, n0 + k) + chunkBytes == RawSum(chain, n0, n0 + |grown|)
    ensures Accounted(apply, chain, payloadLen, n0, n0 + |grown|, rawBytes + chunkBytes,
                      PayloadBytes(payloadBytes, grown[k..], payloadLen))
  {
    PendingPrefix(apply, chain, n0, grown, k);
    PayloadBytesAre(apply, chain, payloadLen, n0, n0 + k, grown[k..], payloadBytes);
  }

  /** The estimate reaches a budget exactly when the window's memory does. */
  lemma {:induction false} EstimateIff(apply: Apply, chain: seq<Block>, payloadLen: StoredBlock -> nat, n0: nat, n: nat,
                                       rawBytes: nat, payloadBytes: nat, budget: Usize)
    requires Accounted(apply, chain, payloadLen, n0, n, rawBytes, payloadBytes)
    ensures EstimatePendingMemory(rawBytes, payloadBytes, n - n0) >= budget
       <==> WindowMemory(apply, chain, payloadLen, n0, n) >= budget
  {
  }
}
