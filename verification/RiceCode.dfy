/** The Rice code whose lengths the statistics charge: quotient in unary, stop bit, remainder in binary. */
module RiceCode {
  import opened Wrappers
  import opened Words
  import opened Seqs
  import opened HashPacking
  import opened EliasDelta

  /** `q` zeros, a one, and the low `k` bits of `r`. */
  ghost function Word(q: nat, r: nat, k: nat): (bits: seq<bool>)
    ensures |bits| == q + 1 + k
  {
    Zeros(q) + [true] + Binary(r, k)
  }

  ghost function WordOf(value: nat, d: nat, k: nat): seq<bool>
    requires d > 0
  {
    Word(value / d, value % d, k)
  }

  /** The quotient by 2^k in unary and the remainder in binary. */
  ghost function RiceWord(value: nat, k: nat): seq<bool> {
    WordOf(value, Pow2(k), k)
  }

  /** The value at `pos` and the position after it, unless the bits run out. */
  ghost function ReadRice(bits: seq<bool>, pos: nat, k: nat): Option<(nat, nat)>
    requires pos <= |bits|
  {
    var z := LeadingZeros(bits, pos);
    if pos + z + 1 + k > |bits| then None
    else Some((z * Pow2(k) + NumeralAt(bits, pos + z + 1, k), pos + z + 1 + k))
  }

  ghost predicate StopBitAt(bits: seq<bool>, pos: nat, z: nat) {
    pos + z < |bits| && bits[pos + z] && forall i | pos <= i < pos + z :: !bits[i]
  }

  lemma {:induction false} StopBitIff(bits: seq<bool>, pos: nat, z: nat)
    ensures Occurs(bits, pos, Zeros(z) + [true]) <==> StopBitAt(bits, pos, z)
  {
    OccursConcat(bits, pos, Zeros(z), [true]);
    if Occurs(bits, pos, Zeros(z) + [true]) {
      assert bits[pos + z + 0] == [true][0];
      forall i | pos <= i < pos + z
        ensures !bits[i]
      {
        assert bits[pos + (i - pos)] == Zeros(z)[i - pos];
      }
    }
  }

  lemma {:induction false} WordParts(bits: seq<bool>, pos: nat, q: nat, r: nat, k: nat)
    ensures Occurs(bits, pos, Word(q, r, k)) <==> StopBitAt(bits, pos, q) && Occurs(bits, pos + q + 1, Binary(r, k))
  {
    OccursConcat(bits, pos, Zeros(q) + [true], Binary(r, k));
    StopBitIff(bits, pos, q);
  }

  lemma {:induction false} WholeValue(value: nat, d: nat)
    requires d > 0
    ensures value == value / d * d + value % d && value % d < d
  {
  }

  /** Reading a word gives quotient and remainder. */
  lemma {:induction false} ReadAfterWord(bits: seq<bool>, pos: nat, q: nat, r: nat, k: nat)
    requires pos <= |bits| && r < Pow2(k) && Occurs(bits, pos, Word(q, r, k))
    ensures ReadRice(bits, pos, k) == Some((q * Pow2(k) + r, pos + q + 1 + k))
  {
    WordParts(bits, pos, q, r, k);
    LeadingZerosAre(bits, pos, q);
    NumeralOfBinary(bits, pos + q + 1, r, k);
  }

  /** What is read is the code word of the value. */
  lemma {:induction false} RiceIsWord(bits: seq<bool>, pos: nat, k: nat)
    requires pos <= |bits| && ReadRice(bits, pos, k).Some?
    ensures var (value, next) := ReadRice(bits, pos, k).value;
            Occurs(bits, pos, RiceWord(value, k)) && next == pos + |RiceWord(value, k)|
  {
    var z := LeadingZeros(bits, pos);
    LeadingZerosMeaning(bits, pos);
    var low := NumeralAt(bits, pos + z + 1, k);
    NumeralBound(bits, pos + z + 1, k);
    BinaryOfNumeral(bits, pos + z + 1, k);
    FieldPosition(z, low, Pow2(k));
    WordParts(bits, pos, z, low, k);
  }

  /** A value is read exactly where its code word stands. */
  lemma {:induction false} RiceIff(bits: seq<bool>, pos: nat, k: nat, value: nat, next: nat)
    requires pos <= |bits|
    ensures ReadRice(bits, pos, k) == Some((value, next))
       <==> Occurs(bits, pos, RiceWord(value, k)) && next == pos + |RiceWord(value, k)|
  {
    if Occurs(bits, pos, RiceWord(value, k)) {
      WholeValue(value, Pow2(k));
      ReadAfterWord(bits, pos, value / Pow2(k), value % Pow2(k), k);
    }
    if ReadRice(bits, pos, k).Some? { RiceIsWord(bits, pos, k); }
  }

  // ---- Streams ------------------------------------------------------------------------------------

  ghost function RiceStream(values: seq<nat>, k: nat): seq<bool> {
    if values == [] then [] else RiceStream(values[..|values| - 1], k) + RiceWord(values[|values| - 1], k)
  }

  /** Reads `n` values from the start of a stream. */
  ghost function ReadRices(bits: seq<bool>, k: nat, n: nat): (r: Option<(seq<nat>, nat)>)
    ensures r.Some? ==> |r.value.0| == n && r.value.1 <= |bits|
  {
    if n == 0 then Some(([], 0))
    else
      match ReadRices(bits, k, n - 1)
      case None => None
      case Some(front) =>
        match ReadRice(bits, front.1, k)
        case None => None
        case Some(last) => Some((front.0 + [last.0], last.1))
  }

  lemma {:induction false} RiceStreamAppend(values: seq<nat>, value: nat, k: nat)
    ensures RiceStream(values + [value], k) == RiceStream(values, k) + RiceWord(value, k)
  {
    assert (values + [value])[..|values|] == values;
  }

  /** Values are read from the start of a bit string exactly when their stream stands there. */
  lemma {:induction false} RiceStreamIff(bits: seq<bool>, k: nat, values: seq<nat>, next: nat)
    ensures ReadRices(bits, k, |values|) == Some((values, next))
       <==> Occurs(bits, 0, RiceStream(values, k)) && next == |RiceStream(values, k)|
  {
    if values != [] {
      var front, last := values[..|values| - 1], values[|values| - 1];
      var mid := |RiceStream(front, k)|;
      assert values == front + [last];
      OccursConcat(bits, 0, RiceStream(front, k), RiceWord(last, k));
      RiceStreamIff(bits, k, front, mid);
      if mid <= |bits| { RiceIff(bits, mid, k, last, next); }
      if ReadRices(bits, k, |values|) == Some((values, next)) {
        RiceStreamIff(bits, k, front, ReadRices(bits, k, |front|).value.1);
      }
    }
  }
}
