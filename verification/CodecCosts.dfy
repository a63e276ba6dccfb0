/** Prices of spent-UID streams: per block, over a whole run, and against the real encoder. */
module CodecCosts {
  import opened Wrappers
  import opened Words
  import opened Seqs
  import SpentIds
  import EliasDelta
  import opened RiceCode

  const RICE_K_COUNT: nat := 33

  const RICE_K_OVERHEAD: nat := 5

  function RiceBits(value: nat, k: nat): nat {
    value / Pow2(k) + 1 + k
  }

  function EliasDeltaBits(value: nat): nat
    requires value > 0
  {
    var len := BitLen(value);
    BitLenBounds(value);
    BitLenBounds(len);
    len + 2 * BitLen(len) - 1
  }

  /** A value to price; where zero is valid, Elias-delta is charged on one more, saturating. */
  datatype Charge = Charge(value: nat, zeroable: bool)

  function Charged(c: Charge): nat {
    if !c.zeroable then c.value else if c.value >= U64_MAX then U64_MAX else c.value + 1
  }

  ghost predicate Chargeable(charges: seq<Charge>) {
    forall i | 0 <= i < |charges| :: charges[i].zeroable || charges[i].value > 0
  }

  /** The charged values. */
  ghost function Values(charges: seq<Charge>): (values: seq<nat>)
    ensures |values| == |charges|
  {
    seq(|charges|, i requires 0 <= i < |charges| => charges[i].value)
  }

  // ---- Sums over values ----------------------------------------------------------------------------

  /** The bits of the charged values' stream with parameter `k`. */
  ghost function RiceSum(charges: seq<Charge>, k: nat): nat {
    |RiceStream(Values(charges), k)|
  }

  lemma {:induction false} RiceAppend(charges: seq<Charge>, c: Charge, k: nat)
    ensures RiceSum(charges + [c], k) == RiceSum(charges, k) + RiceBits(c.value, k)
  {
    assert Values(charges + [c]) == Values(charges) + [c.value];
    RiceStreamAppend(Values(charges), c.value, k);
  }

  lemma {:induction false} RiceConcat(a: seq<Charge>, b: seq<Charge>, k: nat)
    ensures RiceSum(a + b, k) == RiceSum(a, k) + RiceSum(b, k)
  {
    if b == [] {
      assert a + b == a;
    } else {
      var front, last := b[..|b| - 1], b[|b| - 1];
      RiceConcat(a, front, k);
      RiceAppend(a + front, last, k);
      RiceAppend(front, last, k);
      assert a + b == a + front + [last] && b == front + [last];
    }
  }

  /** The least Rice cost over the first `n` parameters. */
  ghost function LeastRice(charges: seq<Charge>, n: nat): nat
    requires n >= 1
  {
    if n == 1 then RiceSum(charges, 0)
    else
      var front := LeastRice(charges, n - 1);
      if RiceSum(charges, n - 1) < front then RiceSum(charges, n - 1) else front
  }

  ghost function BestRice(charges: seq<Charge>): nat {
    LeastRice(charges, RICE_K_COUNT)
  }

  /** The least cost is below none and equal to one. */
  lemma {:induction false} LeastIsLeast(charges: seq<Charge>, n: nat) returns (best: nat)
    requires n >= 1
    ensures forall k: nat | k < n :: LeastRice(charges, n) <= RiceSum(charges, k)
    ensures best < n && LeastRice(charges, n) == RiceSum(charges, best)
  {
    best := n - 1;
    if n > 1 {
      var front := LeastIsLeast(charges, n - 1);
      best := if RiceSum(charges, n - 1) < RiceSum(charges, front) then n - 1 else front;
    }
  }

  /** No parameter gives a shorter stream. */
  lemma {:induction false} BestIsShortest(charges: seq<Charge>)
    ensures forall k: nat | k <= 32 :: BestRice(charges) <= |RiceStream(Values(charges), k)|
  {
    var best := LeastIsLeast(charges, RICE_K_COUNT);
    forall k: nat | k <= 32
      ensures BestRice(charges) <= |RiceStream(Values(charges), k)|
    {
      assert BestRice(charges) <= RiceSum(charges, k);
    }
  }

  // ---- Against the encoder ---------------------------------------------------------------------------

  function ChargedValues(charges: seq<Charge>): (values: seq<nat>)
    ensures |values| == |charges|
  {
    if charges == [] then [] else ChargedValues(charges[..|charges| - 1]) + [Charged(charges[|charges| - 1])]
  }

  /** The estimate charges one bit per value more than the encoder writes. */
  lemma {:induction false} EliasEstimate(charges: seq<Charge>)
    requires Chargeable(charges)
    ensures EliasDelta.Positive(ChargedValues(charges))
    ensures EliasTotal(charges) == |EliasDelta.CodeStream(ChargedValues(charges))| + |charges|
  {
    if charges != [] {
      var front, last := charges[..|charges| - 1], Charged(charges[|charges| - 1]);
      EliasEstimate(front);
      EliasDelta.CodePrefixExtends(ChargedValues(front), last);
      EliasDelta.CodeWordLength(last);
    }
  }

  /** The byte length of an encoded stream follows from the estimate, which never undercounts it. */
  lemma {:induction false} EncodedLength(charges: seq<Charge>)
    requires Chargeable(charges) && forall i | 0 <= i < |charges| :: charges[i].value <= U64_MAX
    ensures EliasDelta.Positive(ChargedValues(charges)) && Words64(ChargedValues(charges))
        && |charges| <= EliasTotal(charges)
    ensures |Pack(EliasDelta.CodeStream(ChargedValues(charges)))| == ByteLen(EliasTotal(charges) - |charges|)
  {
    EliasEstimate(charges);
    ChargedWords(charges);
  }

  lemma {:induction false} ChargedWords(charges: seq<Charge>)
    requires forall i | 0 <= i < |charges| :: charges[i].value <= U64_MAX
    ensures Words64(ChargedValues(charges))
  {
    if charges != [] { ChargedWords(charges[..|charges| - 1]); }
  }

  // ---- An estimate as the program accumulates it --------------------------------------------------------

  class CodecEstimate {
    var values: nat
    const riceBits: array<nat>
    var eliasBits: nat

    /** The sums are those of `charges`. */
    ghost predicate Prices(charges: seq<Charge>)
      reads this, riceBits
    {
      && riceBits.Length == RICE_K_COUNT
      && values == |charges| && Chargeable(charges)
      && (forall k | 0 <= k < RICE_K_COUNT :: riceBits[k] == RiceSum(charges, k))
      && eliasBits == EliasTotal(charges)
    }

    constructor ()
      ensures Prices([]) && fresh(riceBits)
    {
      values, eliasBits := 0, 0;
      riceBits := new nat[RICE_K_COUNT](i => 0);
    }

    /** Adds one value; a zeroable one is charged one higher under Elias-delta. */
    method Add(c: Charge, ghost charges: seq<Charge>)
      requires Prices(charges) && (c.zeroable || c.value > 0)
      modifies this`values, this`eliasBits, riceBits
      ensures Prices(charges + [c])
    {
      EliasAppend(charges, c);
      values := values + 1;
      eliasBits := eliasBits + EliasDeltaBits(Charged(c));
      for k := 0 to RICE_K_COUNT
        invariant values == old(values) + 1 && eliasBits == old(eliasBits) + EliasDeltaBits(Charged(c))
        invariant forall j | 0 <= j < k :: riceBits[j] == RiceSum(charges + [c], j)
        invariant forall j | k <= j < RICE_K_COUNT :: riceBits[j] == RiceSum(charges, j)
      {
        RiceAppend(charges, c, k);
        riceBits[k] := riceBits[k] + RiceBits(c.value, k);
      }
    }

    /** The least total over all parameters, and the first parameter that gives it. */
    method FindBestRice(ghost charges: seq<Charge>) returns (bestK: nat, bits: nat)
      requires Prices(charges)
      ensures bits == BestRice(charges)
      ensures charges != [] ==> bestK <= 32 && bits == RiceSum(charges, bestK)
      ensures charges != [] ==> forall k: nat | k < bestK :: bits < RiceSum(charges, k)
    {
      bestK, bits := 0, riceBits[0];
      for k := 1 to RICE_K_COUNT
        invariant bestK < k && bits == RiceSum(charges, bestK) == LeastRice(charges, k)
        invariant forall j: nat | j < bestK :: bits < RiceSum(charges, j)
      {
        ghost var least := LeastIsLeast(charges, k);
        if riceBits[k] < bits {
          bestK, bits := k, riceBits[k];
        }
      }
      if values == 0 {
        NothingIsFree(RICE_K_COUNT);
        return 0, 0;
      }
    }
  }

  lemma {:induction false} NothingIsFree(n: nat)
    requires n >= 1
    ensures LeastRice([], n) == 0
  {
    if n > 1 { NothingIsFree(n - 1); }
  }

  ghost function EliasTotal(charges: seq<Charge>): nat
    requires Chargeable(charges)
  {
    if charges == [] then 0
    else EliasTotal(charges[..|charges| - 1]) + EliasDeltaBits(Charged(charges[|charges| - 1]))
  }

  lemma {:induction false} EliasAppend(charges: seq<Charge>, c: Charge)
    requires Chargeable(charges) && (c.zeroable || c.value > 0)
    ensures Chargeable(charges + [c]) && EliasTotal(charges + [c]) == EliasTotal(charges) + EliasDeltaBits(Charged(c))
  {
    assert (charges + [c])[..|charges|] == charges;
  }

  // ---- Many blocks -----------------------------------------------------------------------------------------

  ghost function Flatten(blocks: seq<seq<Charge>>): seq<Charge> {
    if blocks == [] then [] else Flatten(blocks[..|blocks| - 1]) + blocks[|blocks| - 1]
  }

  ghost function SumOfBest(blocks: seq<seq<Charge>>): nat {
    if blocks == [] then 0 else SumOfBest(blocks[..|blocks| - 1]) + BestRice(blocks[|blocks| - 1])
  }

  lemma {:induction false} BlocksAppend(blocks: seq<seq<Charge>>, b: seq<Charge>)
    ensures Flatten(blocks + [b]) == Flatten(blocks) + b && SumOfBest(blocks + [b]) == SumOfBest(blocks) + BestRice(b)
  {
    assert (blocks + [b])[..|blocks|] == blocks;
  }

  lemma {:induction false} SumOfBestBelow(blocks: seq<seq<Charge>>, k: nat)
    requires k < RICE_K_COUNT
    ensures SumOfBest(blocks) <= RiceSum(Flatten(blocks), k)
  {
    if blocks != [] {
      var front, last := blocks[..|blocks| - 1], blocks[|blocks| - 1];
      SumOfBestBelow(front, k);
      var least := LeastIsLeast(last, RICE_K_COUNT);
      RiceConcat(Flatten(front), last, k);
    }
  }

  /** Some parameter per block gives streams of these lengths in all. */
  ghost predicate StreamsOf(blocks: seq<seq<Charge>>, ks: seq<nat>, bits: nat)
    decreases |blocks|
  {
    && |ks| == |blocks|
    && if blocks == [] then bits == 0
       else
         var last := |blocks| - 1;
         var own := |RiceStream(Values(blocks[last]), ks[last])|;
         ks[last] <= 32 && own <= bits && StreamsOf(blocks[..last], ks[..last], bits - own)
  }

  /**
   * The sum of the best is the length of real Rice streams, one parameter a block, and no single
   * parameter gives the whole run a shorter stream.
   */
  lemma {:induction false} PerBlockIsBest(blocks: seq<seq<Charge>>) returns (ks: seq<nat>)
    ensures StreamsOf(blocks, ks, SumOfBest(blocks))
    ensures forall k: nat | k <= 32 :: SumOfBest(blocks) <= |RiceStream(Values(Flatten(blocks)), k)|
    ensures SumOfBest(blocks) <= BestRice(Flatten(blocks))
  {
    forall k: nat | k <= 32
      ensures SumOfBest(blocks) <= |RiceStream(Values(Flatten(blocks)), k)|
    {
      SumOfBestBelow(blocks, k);
    }
    var best := LeastIsLeast(Flatten(blocks), RICE_K_COUNT);
    ks := BestStreams(blocks);
  }

  lemma {:induction false} BestStreams(blocks: seq<seq<Charge>>) returns (ks: seq<nat>)
    ensures StreamsOf(blocks, ks, SumOfBest(blocks))
  {
    if blocks == [] {
      ks := [];
    } else {
      var front := BestStreams(blocks[..|blocks| - 1]);
      var best := LeastIsLeast(blocks[|blocks| - 1], RICE_K_COUNT);
      ks := front + [best];
      assert ks[..|blocks| - 1] == front;
    }
  }

  // ---- The spent-UID measurement -------------------------------------------------------------------------------

  datatype MeasureError = DuplicateUid | UidAboveAnchor

  /** The differences of the first `n` ascending UIDs. */
  ghost function Deltas(uids: seq<nat>, n: nat): (charges: seq<Charge>)
    requires 1 <= n <= |uids| && SpentIds.Ascending(uids)
    ensures |charges| == n - 1 && Chargeable(charges)
  {
    if n == 1 then [] else Deltas(uids, n - 1) + [Charge(uids[n - 1] - uids[n - 2], false)]
  }

  /** What one block of ascending UIDs is charged: the distance of the first from the anchor, then the differences. */
  ghost function BlockCharges(uids: seq<nat>, anchor: nat): (charges: seq<Charge>)
    requires uids != [] && SpentIds.Ascending(uids) && uids[0] <= anchor
    ensures charges != [] && Chargeable(charges)
  {
    [Charge(anchor - uids[0], true)] + Deltas(uids, |uids|)
  }

  // ---- What is charged reads back ------------------------------------------------------------------------------

  /** The UIDs a reader gets from the first `n` values: down from the anchor once, then up by the differences. */
  ghost function UidsOf(anchor: nat, values: seq<nat>, n: nat): (uids: seq<int>)
    requires 1 <= n <= |values|
    ensures |uids| == n
  {
    if n == 1 then [anchor - values[0]]
    else
      var front := UidsOf(anchor, values, n - 1);
      front + [front[n - 2] + values[n - 1]]
  }

  lemma {:induction false} ChargesAt(uids: seq<nat>, anchor: nat, i: nat)
    requires uids != [] && SpentIds.Ascending(uids) && uids[0] <= anchor && i < |uids|
    ensures |BlockCharges(uids, anchor)| == |uids|
    ensures BlockCharges(uids, anchor)[i]
         == if i == 0 then Charge(anchor - uids[0], true) else Charge(uids[i] - uids[i - 1], false)
  {
    if i > 0 { DeltasAt(uids, |uids|, i); }
  }

  lemma {:induction false} DeltasAt(uids: seq<nat>, n: nat, i: nat)
    requires 1 <= i < n <= |uids| && SpentIds.Ascending(uids)
    ensures uids[i - 1] < uids[i] && Deltas(uids, n)[i - 1] == Charge(uids[i] - uids[i - 1], false)
  {
    if i < n - 1 { DeltasAt(uids, n - 1, i); }
  }

  lemma {:induction false} UidsOfCharges(uids: seq<nat>, anchor: nat, values: seq<nat>, n: nat)
    requires uids != [] && SpentIds.Ascending(uids) && uids[0] <= anchor && 1 <= n <= |uids|
    requires values == Values(BlockCharges(uids, anchor))
    ensures |values| == |uids| && UidsOf(anchor, values, n) == uids[..n]
  {
    ChargesAt(uids, anchor, n - 1);
    if n > 1 {
      UidsOfCharges(uids, anchor, values, n - 1);
      TakeNext(uids, n);
    }
  }

  /** A block's UIDs are read back from the anchor and the Rice stream of what it is charged, with any parameter. */
  lemma {:induction false} RiceReadsBlock(uids: seq<nat>, anchor: nat, k: nat)
    requires uids != [] && SpentIds.Ascending(uids) && uids[0] <= anchor
    ensures var bits := RiceStream(Values(BlockCharges(uids, anchor)), k);
            var read := ReadRices(bits, k, |uids|);
            read.Some? && read.value.1 == |bits| && UidsOf(anchor, read.value.0, |uids|) == uids
  {
    var values := Values(BlockCharges(uids, anchor));
    UidsOfCharges(uids, anchor, values, |uids|);
    RiceStreamIff(RiceStream(values, k), k, values, |RiceStream(values, k)|);
    assert uids[..|uids|] == uids;
  }

  /** So are they from the values charged under Elias-delta, the first of which is one higher. */
  lemma {:induction false} EliasReadsBlock(uids: seq<nat>, anchor: nat)
    requires uids != [] && SpentIds.Ascending(uids) && uids[0] <= anchor && anchor - uids[0] < U64_MAX
    ensures var values := ChargedValues(BlockCharges(uids, anchor));
            |values| == |uids| && values[0] > 0 && UidsOf(anchor, values[0 := values[0] - 1], |uids|) == uids
  {
    var charges := BlockCharges(uids, anchor);
    ChargesAt(uids, anchor, 0);
    ChargedAt(charges, 0);
    var values := ChargedValues(charges)[0 := anchor - uids[0]];
    forall i | 0 <= i < |uids|
      ensures values[i] == Values(charges)[i]
    {
      ChargesAt(uids, anchor, i);
      ChargedAt(charges, i);
    }
    assert values == Values(charges);
    UidsOfCharges(uids, anchor, values, |uids|);
    assert uids[..|uids|] == uids;
  }

  lemma {:induction false} ChargedAt(charges: seq<Charge>, i: nat)
    requires i < |charges|
    ensures ChargedValues(charges)[i] == Charged(charges[i])
  {
    if i < |charges| - 1 { ChargedAt(charges[..|charges| - 1], i); }
  }

  class SortedUidCodecStats {
    const combined: CodecEstimate
    var blocksWithSpends: nat
    var perBlockBits: nat

    /** The statistics after the blocks whose charges are `blocks`. */
    ghost predicate Holds(blocks: seq<seq<Charge>>)
      reads this, combined, combined.riceBits
    {
      && blocksWithSpends == |blocks|
      && combined.Prices(Flatten(blocks))
      && perBlockBits == SumOfBest(blocks) + RICE_K_OVERHEAD * |blocks|
    }

    constructor ()
      ensures Holds([]) && fresh(combined) && fresh(combined.riceBits)
    {
      combined := new CodecEstimate();
      blocksWithSpends, perBlockBits := 0, 0;
    }

    /** The accumulated total, less five bits a block, never exceeds the run's best single-parameter cost. */
    lemma {:induction false} TotalIsBest(blocks: seq<seq<Charge>>)
      requires Holds(blocks)
      ensures perBlockBits == SumOfBest(blocks) + 5 * blocksWithSpends
      ensures SumOfBest(blocks) <= BestRice(Flatten(blocks))
    {
      var ks := PerBlockIsBest(blocks);
    }

    /** Fails on a repeated UID or when the least one is above the anchor, and on nothing else. */
    method MeasureSortedUidStream(uids: seq<nat>, anchor: nat, ghost blocks: seq<seq<Charge>>)
      returns (r: Result<(), MeasureError>)
      requires Holds(blocks)
      modifies this, combined, combined.riceBits
      ensures r.Ok? <==> uids == [] || (SpentIds.Distinct(uids) && SpentIds.Sorted(uids)[0] <= anchor)
      ensures r.Err? ==> r.error == if SpentIds.Distinct(uids) then UidAboveAnchor else DuplicateUid
      ensures r.Ok? && uids == [] ==> Holds(blocks)
      ensures r.Ok? && uids != [] ==>
        SpentIds.Ascending(SpentIds.Sorted(uids)) && Holds(blocks + [BlockCharges(SpentIds.Sorted(uids), anchor)])
    {
      if uids == [] {
        return Ok(());
      }
      var sorted := SpentIds.Sorted(uids);
      SpentIds.SortedIsSorted(uids);
      SpentIds.SortedAscendingIffDistinct(uids);
      for i := 1 to |sorted|
        invariant SpentIds.AscendingUpTo(sorted, i)
      {
        if sorted[i - 1] == sorted[i] {
          return Err(DuplicateUid);
        }
      }
      blocksWithSpends := blocksWithSpends + 1;
      if anchor < sorted[0] {
        return Err(UidAboveAnchor);
      }
      ghost var charges := BlockCharges(sorted, anchor);
      var block := Price(sorted, anchor, Flatten(blocks));
      BlocksAppend(blocks, charges);
      var bestK, best := block.FindBestRice(charges);
      perBlockBits := perBlockBits + best + RICE_K_OVERHEAD;
      r := Ok(());
    }

    /** Charges one block to its own estimate and to the run's. */
    method Price(sorted: seq<nat>, anchor: nat, ghost run: seq<Charge>) returns (block: CodecEstimate)
      requires sorted != [] && SpentIds.Ascending(sorted) && sorted[0] <= anchor && combined.Prices(run)
      modifies combined, combined.riceBits
      ensures fresh(block) && fresh(block.riceBits)
      ensures block.Prices(BlockCharges(sorted, anchor)) && combined.Prices(run + BlockCharges(sorted, anchor))
    {
      block := new CodecEstimate();
      var first := Charge(anchor - sorted[0], true);
      ghost var charged := [first];
      assert run + [] == run;
      AddToBoth(block, combined, first, [], run);
      assert [] + charged == charged && charged + Deltas(sorted, 1) == charged;
      var prev := sorted[0];
      for i := 1 to |sorted|
        invariant fresh(block) && fresh(block.riceBits) && prev == sorted[i - 1]
        invariant charged == [first] + Deltas(sorted, i)
        invariant block.Prices(charged) && combined.Prices(run + charged)
      {
        var delta := Charge(sorted[i] - prev, false);
        prev := sorted[i];
        AddToBoth(block, combined, delta, charged, run);
        Regroup([first], Deltas(sorted, i), [delta]);
        charged := charged + [delta];
      }
    }
  }

  method AddToBoth(block: CodecEstimate, run: CodecEstimate, c: Charge, ghost charged: seq<Charge>,
                   ghost before: seq<Charge>)
    requires block != run && block.riceBits != run.riceBits && (c.zeroable || c.value > 0)
    requires block.Prices(charged) && run.Prices(before + charged)
    modifies block, block.riceBits, run, run.riceBits
    ensures block.Prices(charged + [c]) && run.Prices(before + (charged + [c]))
  {
    block.Add(c, charged);
    run.Add(c, before + charged);
    Regroup(before, charged, [c]);
  }
}
