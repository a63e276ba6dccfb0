/** Bit streams and the Elias-delta integer code. */
module EliasDelta {
  import opened Wrappers
  import opened Words
  import opened Seqs

  datatype CodecError =
    | NotPositive
    | InvalidPrefix
    | TruncatedPrefix
    | TruncatedLength
    | InvalidLength
    | TruncatedValue

  // ---- Binary numerals -------------------------------------------------

  function Bit(b: bool): nat { if b then 1 else 0 }

  /** The low `n` bits of `value`, most significant first. */
  function Binary(value: nat, n: nat): (bits: seq<bool>)
    ensures |bits| == n
  {
    if n == 0 then [] else Binary(value / 2, n - 1) + [value % 2 == 1]
  }

  /** The number written by the `n` bits of `bits` that start at `pos`. */
  function NumeralAt(bits: seq<bool>, pos: nat, n: nat): nat
    requires pos + n <= |bits|
  {
    if n == 0 then 0 else 2 * NumeralAt(bits, pos, n - 1) + Bit(bits[pos + n - 1])
  }

  lemma {:induction false} NumeralBound(bits: seq<bool>, pos: nat, n: nat)
    requires pos + n <= |bits|
    ensures NumeralAt(bits, pos, n) < Pow2(n)
  {
    if n > 0 { NumeralBound(bits, pos, n - 1); }
  }

  /** Reading a numeral back gives the number that was written. */
  lemma {:induction false} NumeralOfBinary(bits: seq<bool>, pos: nat, value: nat, n: nat)
    requires value < Pow2(n) && Occurs(bits, pos, Binary(value, n))
    ensures NumeralAt(bits, pos, n) == value
  {
    if n > 0 {
      var init := Binary(value / 2, n - 1);
      assert Binary(value, n)[n - 1] == (value % 2 == 1);
      OccursConcat(bits, pos, init, [value % 2 == 1]);
      NumeralOfBinary(bits, pos, value / 2, n - 1);
    }
  }

  /** Writing the number that was read gives the bits back. */
  lemma {:induction false} BinaryOfNumeral(bits: seq<bool>, pos: nat, n: nat)
    requires pos + n <= |bits|
    ensures Occurs(bits, pos, Binary(NumeralAt(bits, pos, n), n))
  {
    if n > 0 {
      BinaryOfNumeral(bits, pos, n - 1);
      var init := NumeralAt(bits, pos, n - 1);
      var value := NumeralAt(bits, pos, n);
      assert value / 2 == init && value % 2 == Bit(bits[pos + n - 1]);
      OccursConcat(bits, pos, Binary(init, n - 1), [value % 2 == 1]);
    }
  }

  /** A binary numeral of exact length starts with its top bit. */
  lemma {:induction false} BinaryTopBit(n: nat, len: nat)
    requires len >= 1 && Pow2(len - 1) <= n < Pow2(len)
    ensures Binary(n, len) == [true] + Binary(n - Pow2(len - 1), len - 1)
  {
    if len == 1 {
      assert Binary(n, 1) == Binary(n / 2, 0) + [true];
    } else {
      BinaryTopBit(n / 2, len - 1);
      var top := Pow2(len - 1);
      assert top == 2 * Pow2(len - 2);
      assert (n - top) / 2 == n / 2 - Pow2(len - 2) && (n - top) % 2 == n % 2;
      Regroup([true], Binary(n / 2 - Pow2(len - 2), len - 2), [n % 2 == 1]);
    }
  }

  // ---- The code words -----------------------------------------------------

  function Zeros(n: nat): (bits: seq<bool>)
    ensures |bits| == n
    ensures forall i | 0 <= i < n :: !bits[i]
  {
    if n == 0 then [] else Zeros(n - 1) + [false]
  }

  /** The code word of `value`: the length of its length in unary, its length, its tail. */
  function CodeWord(value: nat): seq<bool>
    requires value >= 1
  {
    BitLenBounds(value);
    var n := BitLen(value);
    BitLenBounds(n);
    Zeros(BitLen(n) - 1) + Binary(n, BitLen(n)) + Binary(value - Pow2(n - 1), n - 1)
  }

  predicate Positive(values: seq<nat>) {
    forall i | 0 <= i < |values| :: values[i] >= 1
  }

  /** The code words of the first `n` values, one after the other. */
  function CodePrefix(values: seq<nat>, n: nat): seq<bool>
    requires n <= |values| && Positive(values)
  {
    if n == 0 then [] else CodePrefix(values, n - 1) + CodeWord(values[n - 1])
  }

  function CodeStream(values: seq<nat>): seq<bool>
    requires Positive(values)
  {
    CodePrefix(values, |values|)
  }

  // ---- Reading code words ---------------------------------------------------

  /** Number of zero bits from `pos` to the next one bit or to the end. */
  function LeadingZeros(bits: seq<bool>, pos: nat): nat
    requires pos <= |bits|
    decreases |bits| - pos
  {
    if pos == |bits| || bits[pos] then 0 else 1 + LeadingZeros(bits, pos + 1)
  }

  lemma {:induction false} LeadingZerosMeaning(bits: seq<bool>, pos: nat)
    requires pos <= |bits|
    ensures var z := LeadingZeros(bits, pos);
            && pos + z <= |bits|
            && (forall i | pos <= i < pos + z :: !bits[i])
            && (pos + z < |bits| ==> bits[pos + z])
    decreases |bits| - pos
  {
    if pos < |bits| && !bits[pos] { LeadingZerosMeaning(bits, pos + 1); }
  }

  lemma {:induction false} LeadingZerosAre(bits: seq<bool>, pos: nat, z: nat)
    requires pos + z <= |bits| && (pos + z == |bits| || bits[pos + z])
    requires forall i | pos <= i < pos + z :: !bits[i]
    ensures LeadingZeros(bits, pos) == z
    decreases z
  {
    if z > 0 { LeadingZerosAre(bits, pos + 1, z - 1); }
  }

  /** A value read from a stream and the position just after it. */
  datatype Parsed = Parsed(value: nat, next: nat)

  predicate Yields(r: Result<Parsed, CodecError>, value: nat, next: nat) {
    r.Ok? && r.value.value == value && r.value.next == next
  }

  function ParseTail(bits: seq<bool>, pos: nat, n: nat): Result<Parsed, CodecError>
    requires pos <= |bits| && n >= 1
  {
    if n > 64 then Err(InvalidLength)
    else if |bits| < pos + (n - 1) then Err(TruncatedValue)
    else Ok(Parsed(Pow2(n - 1) + NumeralAt(bits, pos, n - 1), pos + (n - 1)))
  }

  function ParseLength(bits: seq<bool>, pos: nat, z: nat): Result<Parsed, CodecError>
    requires pos <= |bits|
  {
    if |bits| < pos + z then Err(TruncatedLength)
    else ParseTail(bits, pos + z, Pow2(z) + NumeralAt(bits, pos, z))
  }

  /** Reads the code word that starts at `pos`. */
  function ParseOne(bits: seq<bool>, pos: nat): Result<Parsed, CodecError>
    requires pos <= |bits|
  {
    var z := LeadingZeros(bits, pos);
    LeadingZerosMeaning(bits, pos);
    if z > 63 then Err(InvalidPrefix)
    else if pos + z == |bits| then Err(TruncatedPrefix)
    else ParseLength(bits, pos + z + 1, z)
  }

  datatype ParsedList = ParsedList(values: seq<nat>, next: nat)

  function ParseMany(bits: seq<bool>, count: nat): (r: Result<ParsedList, CodecError>)
    ensures r.Ok? ==> |r.value.values| == count && r.value.next <= |bits|
  {
    if count == 0 then Ok(ParsedList([], 0))
    else
      match ParseMany(bits, count - 1)
      case Err(e) => Err(e)
      case Ok(front) =>
        match ParseOne(bits, front.next)
        case Err(e) => Err(e)
        case Ok(last) => Ok(ParsedList(front.values + [last.value], last.next))
  }

  // ---- Round trips ------------------------------------------------------------

  /** A code word at `pos`, as a run of zeros, a marker bit, length bits and tail bits. */
  ghost predicate Layout(bits: seq<bool>, pos: nat, z: nat, n: nat) {
    && pos + 2 * z + n <= |bits| && n >= 1
    && (forall i | pos <= i < pos + z :: !bits[i])
    && bits[pos + z]
    && n == Pow2(z) + NumeralAt(bits, pos + z + 1, z)
  }

  /** The marker bit and the length bits after it are the numeral of the length. */
  lemma {:induction false} MarkedLength(bits: seq<bool>, pos: nat, n: nat, z: nat)
    requires Pow2(z) <= n < Pow2(z + 1)
    ensures Occurs(bits, pos, Binary(n, z + 1)) <==>
            pos + z < |bits| && bits[pos] && n == Pow2(z) + NumeralAt(bits, pos + 1, z)
  {
    BinaryTopBit(n, z + 1);
    var rest := Binary(n - Pow2(z), z);
    OccursConcat(bits, pos, [true], rest);
    if Occurs(bits, pos, [true]) && Occurs(bits, pos + 1, rest) {
      assert bits[pos + 0] == [true][0];
      NumeralOfBinary(bits, pos + 1, n - Pow2(z), z);
    }
    if pos + z < |bits| && bits[pos] && n == Pow2(z) + NumeralAt(bits, pos + 1, z) {
      BinaryOfNumeral(bits, pos + 1, z);
    }
  }

  /** The part of a code word before its tail: the length in unary-prefixed binary. */
  function Header(z: nat, n: nat): (bits: seq<bool>)
    ensures |bits| == 2 * z + 1
  {
    Zeros(z) + Binary(n, z + 1)
  }

  lemma {:induction false} CodeWordParts(value: nat, z: nat, n: nat)
    requires value >= 1 && BitLen(value) == n && BitLen(n) == z + 1
    ensures n >= 1 && Pow2(z) <= n < Pow2(z + 1) && Pow2(n - 1) <= value < Pow2(n)
    ensures CodeWord(value) == Header(z, n) + Binary(value - Pow2(n - 1), n - 1)
    ensures |CodeWord(value)| == 2 * z + n
  {
    BitLenBounds(value);
    BitLenBounds(n);
  }

  lemma {:induction false} HeaderLayout(bits: seq<bool>, pos: nat, z: nat, n: nat)
    requires Pow2(z) <= n < Pow2(z + 1) && pos + 2 * z + n <= |bits|
    ensures Occurs(bits, pos, Header(z, n)) <==> Layout(bits, pos, z, n)
  {
    OccursConcat(bits, pos, Zeros(z), Binary(n, z + 1));
    MarkedLength(bits, pos + z, n, z);
    if Occurs(bits, pos, Zeros(z)) {
      forall i | pos <= i < pos + z
        ensures !bits[i]
      {
        assert bits[pos + (i - pos)] == Zeros(z)[i - pos];
      }
    }
  }

  lemma {:induction false} CodeWordSplit(bits: seq<bool>, pos: nat, value: nat, z: nat, n: nat)
    requires value >= 1 && BitLen(value) == n && BitLen(n) == z + 1
    ensures n >= 1 && Pow2(n - 1) <= value && |CodeWord(value)| == 2 * z + n
    ensures Occurs(bits, pos, CodeWord(value)) <==>
            Occurs(bits, pos, Header(z, n)) && Occurs(bits, pos + 2 * z + 1, Binary(value - Pow2(n - 1), n - 1))
  {
    CodeWordParts(value, z, n);
    OccursConcat(bits, pos, Header(z, n), Binary(value - Pow2(n - 1), n - 1));
  }

  lemma {:induction false} LayoutOfCodeWord(bits: seq<bool>, pos: nat, value: nat, z: nat, n: nat)
    requires value >= 1 && BitLen(value) == n && BitLen(n) == z + 1
    requires Occurs(bits, pos, CodeWord(value))
    ensures n >= 1 && |CodeWord(value)| == 2 * z + n && Layout(bits, pos, z, n)
    ensures value == Pow2(n - 1) + NumeralAt(bits, pos + 2 * z + 1, n - 1)
  {
    CodeWordParts(value, z, n);
    CodeWordSplit(bits, pos, value, z, n);
    HeaderLayout(bits, pos, z, n);
    NumeralOfBinary(bits, pos + 2 * z + 1, value - Pow2(n - 1), n - 1);
  }

  lemma {:induction false} LayoutLengths(bits: seq<bool>, pos: nat, z: nat, n: nat, value: nat)
    requires Layout(bits, pos, z, n)
    requires value == Pow2(n - 1) + NumeralAt(bits, pos + 2 * z + 1, n - 1)
    ensures value >= 1 && BitLen(value) == n && BitLen(n) == z + 1 && value < Pow2(n)
  {
    NumeralBound(bits, pos + z + 1, z);
    NumeralBound(bits, pos + 2 * z + 1, n - 1);
    BitLenUnique(n, z + 1);
    BitLenUnique(value, n);
  }

  lemma {:induction false} CodeWordOfLayout(bits: seq<bool>, pos: nat, z: nat, n: nat, value: nat)
    requires Layout(bits, pos, z, n)
    requires value == Pow2(n - 1) + NumeralAt(bits, pos + 2 * z + 1, n - 1)
    ensures value >= 1 && |CodeWord(value)| == 2 * z + n
    ensures Occurs(bits, pos, CodeWord(value))
  {
    LayoutLengths(bits, pos, z, n, value);
    CodeWordParts(value, z, n);
    HeaderLayout(bits, pos, z, n);
    BinaryOfNumeral(bits, pos + 2 * z + 1, n - 1);
    CodeWordSplit(bits, pos, value, z, n);
  }

  lemma {:induction false} SmallBitLen(n: nat)
    requires 1 <= n <= 64
    ensures 1 <= BitLen(n) <= 7
  {
    BitLenBounds(n);
    if BitLen(n) > 7 {
      assert Pow2(7) == 128;
      Pow2Monotone(7, BitLen(n) - 1);
    }
  }

  lemma {:induction false} ParseLayout(bits: seq<bool>, pos: nat, z: nat, n: nat, value: nat)
    requires Layout(bits, pos, z, n) && z <= 63 && n <= 64
    requires value == Pow2(n - 1) + NumeralAt(bits, pos + 2 * z + 1, n - 1)
    ensures Yields(ParseOne(bits, pos), value, pos + 2 * z + n)
  {
    LeadingZerosAre(bits, pos, z);
  }

  /** Reading what was written returns the value and consumes exactly its code word. */
  lemma {:induction false} ParseAfterEncode(bits: seq<bool>, pos: nat, value: nat)
    requires 1 <= value <= U64_MAX && Occurs(bits, pos, CodeWord(value))
    ensures Yields(ParseOne(bits, pos), value, pos + |CodeWord(value)|)
  {
    WordBitLen(value);
    var n := BitLen(value);
    SmallBitLen(n);
    var z := BitLen(n) - 1;
    LayoutOfCodeWord(bits, pos, value, z, n);
    ParseLayout(bits, pos, z, n, value);
  }

  lemma {:induction false} LayoutOfParse(bits: seq<bool>, pos: nat) returns (z: nat, n: nat)
    requires pos <= |bits| && ParseOne(bits, pos).Ok?
    ensures Layout(bits, pos, z, n) && n <= 64
    ensures ParseOne(bits, pos).value
         == Parsed(Pow2(n - 1) + NumeralAt(bits, pos + 2 * z + 1, n - 1), pos + 2 * z + n)
  {
    z := LeadingZeros(bits, pos);
    LeadingZerosMeaning(bits, pos);
    n := Pow2(z) + NumeralAt(bits, pos + z + 1, z);
  }

  /** Every accepted code is the code word of the value read from it. */
  lemma {:induction false} ParseIsCanonical(bits: seq<bool>, pos: nat, p: Parsed)
    requires pos <= |bits| && ParseOne(bits, pos) == Ok(p)
    ensures 1 <= p.value <= U64_MAX
    ensures p.next == pos + |CodeWord(p.value)| <= |bits|
    ensures Occurs(bits, pos, CodeWord(p.value))
  {
    var z, n := LayoutOfParse(bits, pos);
    CodeWordOfLayout(bits, pos, z, n, p.value);
    LayoutLengths(bits, pos, z, n, p.value);
    Pow2SixtyFour();
    Pow2Monotone(n, 64);
  }

  lemma {:induction false} CodePrefixOccurs(bits: seq<bool>, values: seq<nat>, n: nat, i: nat)
    requires i < n <= |values| && Positive(values)
    requires Occurs(bits, 0, CodePrefix(values, n))
    ensures Occurs(bits, |CodePrefix(values, i)|, CodeWord(values[i]))
  {
    OccursConcat(bits, 0, CodePrefix(values, n - 1), CodeWord(values[n - 1]));
    if i < n - 1 { CodePrefixOccurs(bits, values, n - 1, i); }
  }

  /** Position of the `i`-th code word in the stream of `values`. */
  function StartOf(values: seq<nat>, i: nat): nat
    requires i <= |values| && Positive(values)
  {
    |CodePrefix(values, i)|
  }

  lemma {:induction false} ParseInStream(bits: seq<bool>, values: seq<nat>, i: nat)
    requires Positive(values) && Words64(values) && i < |values|
    requires Occurs(bits, 0, CodeStream(values))
    ensures StartOf(values, i) <= StartOf(values, i + 1) <= |bits|
    ensures Yields(ParseOne(bits, StartOf(values, i)), values[i], StartOf(values, i + 1))
  {
    CodePrefixOccurs(bits, values, |values|, i);
    ParseAfterEncode(bits, StartOf(values, i), values[i]);
  }

  /** Reading `n` values from their stream returns them and stops where they end. */
  lemma {:induction false} ParseManyAfterEncode(bits: seq<bool>, values: seq<nat>, n: nat)
    requires Positive(values) && Words64(values) && n <= |values|
    requires Occurs(bits, 0, CodeStream(values))
    ensures ParseMany(bits, n).Ok?
    ensures ParseMany(bits, n).value.values == values[..n]
    ensures ParseMany(bits, n).value.next == StartOf(values, n)
  {
    if n > 0 {
      ParseManyAfterEncode(bits, values, n - 1);
      ParseInStream(bits, values, n - 1);
      TakeNext(values, n);
    }
  }

  lemma {:induction false} CodePrefixExtends(front: seq<nat>, last: nat)
    requires Positive(front) && last >= 1
    ensures Positive(front + [last])
    ensures CodeStream(front + [last]) == CodeStream(front) + CodeWord(last)
  {
    CodePrefixDependsOnPrefix(front, front + [last], |front|);
  }

  lemma {:induction false} CodePrefixDependsOnPrefix(a: seq<nat>, b: seq<nat>, n: nat)
    requires Positive(a) && Positive(b) && n <= |a| && n <= |b|
    requires forall i | 0 <= i < n :: a[i] == b[i]
    ensures CodePrefix(a, n) == CodePrefix(b, n)
  {
    if n > 0 { CodePrefixDependsOnPrefix(a, b, n - 1); }
  }

  /** Re-encoding an accepted list reproduces the bits that were read. */
  lemma {:induction false} ParseManyIsCanonical(bits: seq<bool>, count: nat)
    requires ParseMany(bits, count).Ok?
    ensures var p := ParseMany(bits, count).value;
            && Positive(p.values) && Words64(p.values)
            && p.next == |CodeStream(p.values)|
            && Occurs(bits, 0, CodeStream(p.values))
  {
    if count > 0 {
      var front := ParseMany(bits, count - 1).value;
      var last := ParseOne(bits, front.next).value;
      ParseManyIsCanonical(bits, count - 1);
      ParseIsCanonical(bits, front.next, last);
      CodePrefixExtends(front.values, last.value);
      OccursConcat(bits, 0, CodeStream(front.values), CodeWord(last.value));
    }
  }

  /** A stream that fails after `count` values fails the same way at any larger count. */
  lemma {:induction false} ParseManyFailure(bits: seq<bool>, count: nat, larger: nat)
    requires count <= larger && ParseMany(bits, count).Err?
    ensures ParseMany(bits, larger) == ParseMany(bits, count)
  {
    if count < larger { ParseManyFailure(bits, count, larger - 1); }
  }

  // ---- Size ---------------------------------------------------------------

  /** The code emits one bit less than twice the length of the length plus the length. */
  lemma {:induction false} CodeWordLength(value: nat)
    requires value >= 1
    ensures BitLen(value) >= 1 && BitLen(BitLen(value)) >= 1
    ensures |CodeWord(value)| == BitLen(value) + 2 * BitLen(BitLen(value)) - 2
  {
    BitLenBounds(value);
    BitLenBounds(BitLen(value));
    CodeWordParts(value, BitLen(BitLen(value)) - 1, BitLen(value));
  }

  // ---- The writer and the reader ------------------------------------------

  class BitWriter {
    var bytes: seq<bv8>
    var bitLen: nat

    ghost predicate Valid()
      reads this
    {
      && |bytes| == ByteLen(bitLen)
      && forall i | bitLen <= i < 8 * |bytes| :: !BitAt(bytes, i)
    }

    ghost function Contents(): (bits: seq<bool>)
      requires Valid()
      reads this
    {
      Unpack(bytes)[..bitLen]
    }

    constructor ()
      ensures Valid() && Contents() == []
    {
      bytes := [];
      bitLen := 0;
    }

    method PushBit(bit: bool)
      requires Valid()
      modifies this
      ensures Valid() && Contents() == old(Contents()) + [bit]
    {
      ghost var before := bytes;
      if bitLen % 8 == 0 {
        bytes := bytes + [0];
        GrownBits(before);
      }
      ghost var grown := bytes;
      if bit {
        SetBits(bytes, bitLen);
        bytes := bytes[bitLen / 8 := bytes[bitLen / 8] | Mask(bitLen % 8)];
      }
      AppendedBit(before, grown, bytes, bitLen, bit);
      bitLen := bitLen + 1;
    }

    /** Pushes the low `bits` bits of `value`, most significant first. */
    method PushBits(value: nat, bits: nat)
      requires Valid()
      modifies this
      ensures Valid() && Contents() == old(Contents()) + Binary(value, bits)
    {
      var i := bits;
      while i > 0
        invariant 0 <= i <= bits && Valid()
        invariant Contents() == old(Contents()) + Binary(ShiftRight(value, i), bits - i)
      {
        i := i - 1;
        ghost var front := Binary(ShiftRight(value, i + 1), bits - i - 1);
        PushBit(ShiftRight(value, i) % 2 == 1);
        Regroup(old(Contents()), front, [ShiftRight(value, i) % 2 == 1]);
      }
    }

    method IntoBytes() returns (out: seq<bv8>)
      requires Valid()
      ensures Packs(out, Contents())
    {
      out := bytes;
    }
  }

  lemma {:induction false} AppendedBit(before: seq<bv8>, grown: seq<bv8>, after: seq<bv8>, n: nat, bit: bool)
    requires n <= 8 * |before| <= 8 * |grown| == 8 * |after| && n < 8 * |after|
    requires forall i | n <= i < 8 * |before| :: !BitAt(before, i)
    requires forall i | 0 <= i < 8 * |grown| :: BitAt(grown, i) == (i < 8 * |before| && BitAt(before, i))
    requires forall i | 0 <= i < 8 * |after| :: BitAt(after, i) == ((i == n && bit) || BitAt(grown, i))
    ensures Unpack(after)[..n + 1] == Unpack(before)[..n] + [bit]
    ensures forall i | n + 1 <= i < 8 * |after| :: !BitAt(after, i)
  {
    forall i | 0 <= i < 8 * |after|
      ensures BitAt(after, i) == ((i == n && bit) || (i < n && BitAt(before, i)))
    {
      assert BitAt(grown, i) == (i < 8 * |before| && BitAt(before, i));
    }
  }

  class BitReader {
    const bytes: seq<bv8>
    var bitPos: nat

    ghost predicate Valid()
      reads this
    {
      bitPos <= 8 * |bytes|
    }

    ghost function Bits(): (bits: seq<bool>)
    {
      Unpack(bytes)
    }

    constructor (bytes: seq<bv8>)
      ensures Valid() && this.bytes == bytes && bitPos == 0
    {
      this.bytes := bytes;
      this.bitPos := 0;
    }

    method ReadBit() returns (bit: Option<bool>)
      requires Valid()
      modifies this`bitPos
      ensures Valid()
      ensures bit.None? <==> old(bitPos) == |Bits()|
      ensures bit.None? ==> bitPos == old(bitPos)
      ensures bit.Some? ==> bitPos == old(bitPos) + 1 && bit.value == Bits()[old(bitPos)]
    {
      if bitPos >= 8 * |bytes| {
        return None;
      }
      bit := Some(BitAt(bytes, bitPos));
      bitPos := bitPos + 1;
    }

    method ReadBits(bits: nat) returns (value: Option<nat>)
      requires Valid()
      modifies this`bitPos
      ensures Valid()
      ensures value.None? <==> |Bits()| < old(bitPos) + bits
      ensures value.Some? ==>
        && bitPos == old(bitPos) + bits
        && value.value == NumeralAt(Bits(), old(bitPos), bits)
    {
      var v := 0;
      for i := 0 to bits
        invariant Valid() && bitPos == old(bitPos) + i
        invariant v == NumeralAt(Bits(), old(bitPos), i)
      {
        var b := ReadBit();
        if b.None? {
          return None;
        }
        v := 2 * v + Bit(b.value);
      }
      value := Some(v);
    }

    /** Skips the zero bits up to and including the next one bit; returns their number. */
    method ReadPrefix() returns (zeros: Result<nat, CodecError>)
      requires Valid()
      modifies this`bitPos
      ensures Valid()
      ensures var z := LeadingZeros(Bits(), old(bitPos));
              zeros == if z > 63 then Err(InvalidPrefix)
                       else if old(bitPos) + z == |Bits()| then Err(TruncatedPrefix)
                       else Ok(z)
      ensures zeros.Ok? ==> bitPos == old(bitPos) + zeros.value + 1
    {
      var z := 0;
      LeadingZerosMeaning(Bits(), bitPos);
      while true
        invariant Valid() && 0 <= z <= 63 && bitPos == old(bitPos) + z
        invariant z <= LeadingZeros(Bits(), old(bitPos))
        decreases 64 - z
      {
        var b := ReadBit();
        if b.None? {
          return Err(TruncatedPrefix);
        }
        if b.value {
          return Ok(z);
        }
        z := z + 1;
        if z > 63 {
          return Err(InvalidPrefix);
        }
      }
    }
  }

  lemma {:induction false} AppendedCodeWord(start: seq<bool>, value: nat, z: nat, n: nat)
    requires value >= 1 && BitLen(value) == n && BitLen(n) == z + 1
    ensures n >= 1 && value >= Pow2(n - 1)
    ensures start + Zeros(z) + Binary(n, z + 1) + Binary(value - Pow2(n - 1), n - 1)
         == start + CodeWord(value)
  {
    CodeWordParts(value, z, n);
    var tail := Binary(value - Pow2(n - 1), n - 1);
    Regroup(start, Zeros(z), Binary(n, z + 1));
    Regroup(start, Header(z, n), tail);
  }

  /** Writes the zeros and the length: the part of a code word before its tail. */
  method EncodeLength(nBits: nat, lenBits: nat, w: BitWriter)
    requires lenBits >= 1 && w.Valid()
    modifies w
    ensures w.Valid() && w.Contents() == old(w.Contents()) + Zeros(lenBits - 1) + Binary(nBits, lenBits)
  {
    ghost var start := w.Contents();
    for i := 0 to lenBits - 1
      invariant w.Valid() && w.Contents() == start + Zeros(i)
    {
      Regroup(start, Zeros(i), [false]);
      w.PushBit(false);
    }
    w.PushBits(nBits, lenBits);
  }

  /** Writes the bits of `value` below its top bit. */
  method EncodeTail(value: nat, nBits: nat, w: BitWriter)
    requires nBits >= 1 && value >= Pow2(nBits - 1) && w.Valid()
    modifies w
    ensures w.Valid() && w.Contents() == old(w.Contents()) + Binary(value - Pow2(nBits - 1), nBits - 1)
  {
    if nBits > 1 {
      // Clearing the top bit of a word is subtracting its weight.
      w.PushBits(value - Pow2(nBits - 1), nBits - 1);
    }
  }

  method EncodeOne(value: nat, w: BitWriter) returns (r: Result<(), CodecError>)
    requires value <= U64_MAX && w.Valid()
    modifies w
    ensures w.Valid()
    ensures r.Ok? <==> value >= 1
    ensures r.Ok? ==> w.Contents() == old(w.Contents()) + CodeWord(value)
  {
    if value < 1 {
      return Err(NotPositive);
    }
    ghost var start := w.Contents();
    BitLenBounds(value);
    var nBits := BitLen(value);
    BitLenBounds(nBits);
    var lenBits := BitLen(nBits);
    EncodeLength(nBits, lenBits, w);
    EncodeTail(value, nBits, w);
    AppendedCodeWord(start, value, lenBits - 1, nBits);
    return Ok(());
  }

  method DecodeOne(r: BitReader) returns (out: Result<nat, CodecError>)
    requires r.Valid()
    modifies r`bitPos
    ensures r.Valid()
    ensures match ParseOne(r.Bits(), old(r.bitPos))
            case Ok(p) => out == Ok(p.value) && r.bitPos == p.next
            case Err(e) => out == Err(e)
  {
    LeadingZerosMeaning(r.Bits(), r.bitPos);
    var prefix := r.ReadPrefix();
    if prefix.Err? {
      return Err(prefix.error);
    }
    out := DecodeLength(r, prefix.value);
  }

  method DecodeLength(r: BitReader, zeros: nat) returns (out: Result<nat, CodecError>)
    requires r.Valid()
    modifies r`bitPos
    ensures r.Valid()
    ensures match ParseLength(r.Bits(), old(r.bitPos), zeros)
            case Ok(p) => out == Ok(p.value) && r.bitPos == p.next
            case Err(e) => out == Err(e)
  {
    var nBits := Pow2(zeros);
    if zeros > 0 {
      var len := r.ReadBits(zeros);
      if len.None? {
        return Err(TruncatedLength);
      }
      // The length bits lie below the marker bit, so the bitwise or is a sum.
      nBits := nBits + len.value;
    }
    out := DecodeTail(r, nBits);
  }

  method DecodeTail(r: BitReader, nBits: nat) returns (out: Result<nat, CodecError>)
    requires r.Valid() && nBits >= 1
    modifies r`bitPos
    ensures r.Valid()
    ensures match ParseTail(r.Bits(), old(r.bitPos), nBits)
            case Ok(p) => out == Ok(p.value) && r.bitPos == p.next
            case Err(e) => out == Err(e)
  {
    if !(1 <= nBits <= 64) {
      return Err(InvalidLength);
    }
    var tail := 0;
    if nBits > 1 {
      var t := r.ReadBits(nBits - 1);
      if t.None? {
        return Err(TruncatedValue);
      }
      tail := t.value;
    }
    out := Ok(Pow2(nBits - 1) + tail);
  }

  method EncodeValues(values: seq<nat>) returns (r: Result<seq<bv8>, CodecError>)
    requires Words64(values)
    ensures r.Ok? <==> Positive(values)
    ensures r.Ok? ==> Packs(r.value, CodeStream(values))
  {
    var w := new BitWriter();
    for i := 0 to |values|
      invariant w.Valid() && fresh(w)
      invariant Positive(values[..i])
      invariant w.Contents() == CodeStream(values[..i])
    {
      var step := EncodeOne(values[i], w);
      if step.Err? {
        return Err(step.error);
      }
      TakeNext(values, i + 1);
      CodePrefixExtends(values[..i], values[i]);
    }
    assert values[..|values|] == values;
    var out := w.IntoBytes();
    r := Ok(out);
  }

  method DecodeValues(bytes: seq<bv8>, count: nat) returns (r: Result<seq<nat>, CodecError>)
    ensures match ParseMany(Unpack(bytes), count)
            case Ok(p) => r == Ok(p.values)
            case Err(e) => r == Err(e)
  {
    var reader := new BitReader(bytes);
    ghost var all := Unpack(bytes);
    var out := [];
    for i := 0 to count
      invariant reader.Valid() && reader.bytes == bytes && fresh(reader)
      invariant ParseMany(all, i) == Ok(ParsedList(out, reader.bitPos))
    {
      var v := DecodeOne(reader);
      if v.Err? {
        ParseManyFailure(all, i + 1, count);
        return Err(v.error);
      }
      out := out + [v.value];
    }
    r := Ok(out);
  }
}
