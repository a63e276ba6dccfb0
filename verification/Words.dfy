/** Machine-word bounds, powers of two, and the bits of one byte. */
module Words {

  const U16_MAX: nat := 0xffff
  const U32_MAX: nat := 0xffff_ffff
  const U64_MAX: nat := 0xffff_ffff_ffff_ffff

  predicate Words64(values: seq<nat>) {
    forall i | 0 <= i < |values| :: values[i] <= U64_MAX
  }

  function Pow2(n: nat): (p: nat)
    ensures p >= 1
  {
    if n == 0 then 1 else 2 * Pow2(n - 1)
  }

  /** Number of significant bits of `n`; `64 - leading_zeros` on a 64-bit word. */
  function BitLen(n: nat): nat
  {
    if n == 0 then 0 else 1 + BitLen(n / 2)
  }

  lemma {:induction false} Pow2Monotone(a: nat, b: nat)
    requires a <= b
    ensures Pow2(a) <= Pow2(b)
  {
    if a < b { Pow2Monotone(a, b - 1); }
  }

  lemma {:induction false} Pow2Sixteen()
    ensures Pow2(16) == 0x1_0000 == U16_MAX + 1
  {
    assert Pow2(8) == 0x100;
  }

  lemma {:induction false} Pow2SixtyFour()
    ensures Pow2(32) == U32_MAX + 1 && Pow2(64) == U64_MAX + 1
  {
    Pow2Sixteen();
    assert Pow2(24) == 0x100_0000;
    assert Pow2(32) == 0x1_0000_0000;
    assert Pow2(40) == 0x100_0000_0000;
    assert Pow2(48) == 0x1_0000_0000_0000;
    assert Pow2(56) == 0x100_0000_0000_0000;
  }

  /** `BitLen(n)` is the one length whose binary range contains `n`. */
  lemma {:induction false} BitLenBounds(n: nat)
    requires n > 0
    ensures BitLen(n) >= 1
    ensures Pow2(BitLen(n) - 1) <= n < Pow2(BitLen(n))
  {
    if n > 1 {
      var half := n / 2;
      BitLenBounds(half);
      var len := BitLen(half);
      assert BitLen(n) == 1 + len;
      assert Pow2(len) == 2 * Pow2(len - 1);
    }
  }

  lemma {:induction false} WordBitLen(n: nat)
    requires 0 < n <= U64_MAX
    ensures 1 <= BitLen(n) <= 64 && Pow2(BitLen(n) - 1) <= n < Pow2(BitLen(n))
  {
    BitLenBounds(n);
    Pow2SixtyFour();
    if BitLen(n) > 64 { Pow2Monotone(64, BitLen(n) - 1); }
  }

  lemma {:induction false} BitLenUnique(n: nat, len: nat)
    requires len >= 1 && Pow2(len - 1) <= n < Pow2(len)
    ensures BitLen(n) == len
  {
    if len > 1 {
      assert Pow2(len - 1) == 2 * Pow2(len - 2);
      BitLenUnique(n / 2, len - 1);
    }
  }

  /** `value >> n` on an unsigned word. */
  function ShiftRight(value: nat, n: nat): nat
  {
    if n == 0 then value else ShiftRight(value, n - 1) / 2
  }

  /** Selects bit `k` of a byte, most significant first: `1 << (7 - k)`. */
  function Mask(k: nat): bv8
    requires k < 8
  {
    match k
    case 0 => 0x80
    case 1 => 0x40
    case 2 => 0x20
    case 3 => 0x10
    case 4 => 0x08
    case 5 => 0x04
    case 6 => 0x02
    case _ => 0x01
  }

  predicate ByteBit(b: bv8, k: nat)
    requires k < 8
  {
    b & Mask(k) != 0
  }

  lemma {:induction false} SetByteBit(b: bv8, k: nat, j: nat)
    requires k < 8 && j < 8
    ensures ByteBit(b | Mask(k), j) == (j == k || ByteBit(b, j))
  {
  }

  lemma {:induction false} ByteExtensionality(a: bv8, b: bv8)
    requires forall k: nat :: k < 8 ==> ByteBit(a, k) == ByteBit(b, k)
    ensures a == b
  {
    assert ByteBit(a, 0) == ByteBit(b, 0) && ByteBit(a, 1) == ByteBit(b, 1);
    assert ByteBit(a, 2) == ByteBit(b, 2) && ByteBit(a, 3) == ByteBit(b, 3);
    assert ByteBit(a, 4) == ByteBit(b, 4) && ByteBit(a, 5) == ByteBit(b, 5);
    assert ByteBit(a, 6) == ByteBit(b, 6) && ByteBit(a, 7) == ByteBit(b, 7);
  }

  /** Bit `i` of a byte string, most significant bit of each byte first. */
  predicate BitAt(bytes: seq<bv8>, i: nat)
    requires i < 8 * |bytes|
  {
    ByteBit(bytes[i / 8], i % 8)
  }

  function Unpack(bytes: seq<bv8>): (bits: seq<bool>)
    ensures |bits| == 8 * |bytes|
  {
    seq(8 * |bytes|, i requires 0 <= i < 8 * |bytes| => BitAt(bytes, i))
  }

  lemma {:induction false} GrownBits(bytes: seq<bv8>)
    ensures forall i | 0 <= i < 8 * |bytes| + 8 ::
      BitAt(bytes + [0], i) == (i < 8 * |bytes| && BitAt(bytes, i))
  {
    forall i | 0 <= i < 8 * |bytes| + 8
      ensures BitAt(bytes + [0], i) == (i < 8 * |bytes| && BitAt(bytes, i))
    {
      if i >= 8 * |bytes| { assert (bytes + [0])[i / 8] == 0; }
    }
  }

  lemma {:induction false} SetBits(bytes: seq<bv8>, at: nat)
    requires at < 8 * |bytes|
    ensures var set' := bytes[at / 8 := bytes[at / 8] | Mask(at % 8)];
            forall i | 0 <= i < 8 * |bytes| :: BitAt(set', i) == (i == at || BitAt(bytes, i))
  {
    var set' := bytes[at / 8 := bytes[at / 8] | Mask(at % 8)];
    forall i | 0 <= i < 8 * |bytes|
      ensures BitAt(set', i) == (i == at || BitAt(bytes, i))
    {
      if i / 8 == at / 8 { SetByteBit(bytes[at / 8], at % 8, i % 8); }
    }
  }

  function ByteLen(bits: nat): nat { (bits + 7) / 8 }

  /** `bytes` is the shortest zero-padded byte string holding exactly `bits`. */
  ghost predicate Packs(bytes: seq<bv8>, bits: seq<bool>) {
    && |bytes| == ByteLen(|bits|)
    && Unpack(bytes)[..|bits|] == bits
    && forall i | |bits| <= i < 8 * |bytes| :: !BitAt(bytes, i)
  }

  /** A bit string has at most one packing. */
  lemma {:induction false} PackingIsUnique(a: seq<bv8>, b: seq<bv8>, bits: seq<bool>)
    requires Packs(a, bits) && Packs(b, bits)
    ensures a == b
  {
    forall i | 0 <= i < |a|
      ensures a[i] == b[i]
    {
      forall k: nat | k < 8
        ensures ByteBit(a[i], k) == ByteBit(b[i], k)
      {
        var p := 8 * i + k;
        assert p / 8 == i && p % 8 == k;
        assert BitAt(a, p) == ByteBit(a[i], k) && BitAt(b, p) == ByteBit(b[i], k);
        if p < |bits| {
          assert Unpack(a)[..|bits|][p] == Unpack(b)[..|bits|][p];
        }
      }
      ByteExtensionality(a[i], b[i]);
    }
  }

  /** Bits `base .. base + n` of a bit string as the leading bits of one byte. */
  function PackByte(bits: seq<bool>, base: nat, n: nat): bv8
    requires n <= 8
  {
    if n == 0 then 0
    else
      PackByte(bits, base, n - 1)
      | (if base + n - 1 < |bits| && bits[base + n - 1] then Mask(n - 1) else 0)
  }

  lemma {:induction false} PackByteBits(bits: seq<bool>, base: nat, n: nat, k: nat)
    requires n <= 8 && k < 8
    ensures ByteBit(PackByte(bits, base, n), k)
         == (k < n && base + k < |bits| && bits[base + k])
  {
    if n == 0 {
      assert (0 as bv8) & Mask(k) == 0;
    } else {
      PackByteBits(bits, base, n - 1, k);
      var front := PackByte(bits, base, n - 1);
      SetByteBit(front, n - 1, k);
      assert front | 0 == front;
    }
  }

  /** The byte string that holds `bits`, zero-padded to a whole byte. */
  function Pack(bits: seq<bool>): (bytes: seq<bv8>)
    ensures |bytes| == ByteLen(|bits|)
  {
    seq(ByteLen(|bits|), i requires 0 <= i < ByteLen(|bits|) => PackByte(bits, 8 * i, 8))
  }

  lemma {:induction false} PackPacks(bits: seq<bool>)
    ensures Packs(Pack(bits), bits)
  {
    forall i | 0 <= i < 8 * |Pack(bits)|
      ensures BitAt(Pack(bits), i) == (i < |bits| && bits[i])
    {
      PackByteBits(bits, 8 * (i / 8), 8, i % 8);
    }
  }
}
