/** Fixed-width truncated output hashes, packed most significant bit first. */
module HashPacking {
  import opened Words

  /** An x-only output key; only its digest is ever inspected. */
  type Key = nat

  /** A 32-byte digest. */
  type Digest = d: seq<bv8> | |d| == 32 witness seq(32, i => 0)

  /** The tagged hash of a key; an arbitrary function of the key. */
  type Hasher = Key -> Digest

  predicate DigestBit(hash: Hasher, key: Key, j: nat)
    requires j < 256
  {
    BitAt(hash(key), j)
  }

  lemma {:induction false} FieldPosition(i: nat, j: nat, bits: nat)
    requires j < bits
    ensures (i * bits + j) / bits == i && (i * bits + j) % bits == j
  {
    var x := i * bits + j;
    var q := x / bits;
    assert x == bits * q + x % bits;
    MulStep(bits, i, q);
    MulStep(bits, q, i);
  }

  lemma {:induction false} MulMonotone(d: nat, a: nat, b: nat)
    requires a <= b
    ensures d * a <= d * b
  {
  }

  lemma {:induction false} MulStep(d: nat, a: nat, b: nat)
    ensures a < b ==> d * a + d <= d * b
  {
    assert d * (a + 1) == d * a + d;
    if a < b { MulMonotone(d, a + 1, b); }
  }

  lemma {:induction false} FieldInRange(i: nat, j: nat, bits: nat, n: nat)
    requires i < n && j < bits
    ensures i * bits + j < i * bits + bits <= n * bits
  {
    MulStep(bits, i, n);
  }

  lemma {:induction false} QuotientBelow(p: nat, q: nat, r: nat, bits: nat, n: nat)
    requires p == bits * q + r && p < bits * n
    ensures q < n
  {
    if q >= n { MulMonotone(bits, n, q); }
  }

  lemma {:induction false} MulCommutes(a: nat, b: nat)
    ensures a * b == b * a
  {
  }

  lemma {:induction false} FieldOf(p: nat, bits: nat, n: nat)
    requires bits > 0 && p < n * bits
    ensures p / bits < n && p % bits < bits && p == (p / bits) * bits + p % bits
  {
    var q, r := p / bits, p % bits;
    MulCommutes(n, bits);
    MulCommutes(q, bits);
    QuotientBelow(p, q, r, bits, n);
  }

  /** The `p`-th bit of the fields written one after another. */
  predicate StreamBitAt(hash: Hasher, keys: seq<Key>, bits: nat, p: nat)
    requires 0 < bits < 256 && p < |keys| * bits
  {
    FieldOf(p, bits, |keys|);
    DigestBit(hash, keys[p / bits], p % bits)
  }

  /** The first `bits` digest bits of every key, in key order. */
  function HashStream(hash: Hasher, keys: seq<Key>, bits: nat): (stream: seq<bool>)
    requires 0 < bits < 256
    ensures |stream| == |keys| * bits
  {
    seq(|keys| * bits, p requires 0 <= p < |keys| * bits => StreamBitAt(hash, keys, bits, p))
  }

  /** Byte length of `count` fields of `bits` bits. */
  function PackedLen(count: nat, bits: nat): nat
  {
    if count == 0 || bits == 0 then 0 else ByteLen(count * bits)
  }

  function PackedHashes(hash: Hasher, keys: seq<Key>, bits: nat): (bytes: seq<bv8>)
    requires bits < 256
    ensures |bytes| == PackedLen(|keys|, bits)
  {
    if bits == 0 then [] else Pack(HashStream(hash, keys, bits))
  }

  /** The bytes reach to the end of the `i`-th field. */
  predicate FieldFits(bytes: seq<bv8>, bits: nat, i: nat) {
    (i + 1) * bits <= 8 * |bytes|
  }

  /** The `i`-th field read back from a packed stream. */
  function UnpackField(bytes: seq<bv8>, bits: nat, i: nat): (field: seq<bool>)
    requires FieldFits(bytes, bits, i)
    ensures |field| == bits
  {
    assert (i + 1) * bits == i * bits + bits;
    seq(bits, j requires 0 <= j < bits => BitAt(bytes, i * bits + j))
  }

  lemma {:induction false} StreamBit(hash: Hasher, keys: seq<Key>, bits: nat, i: nat, j: nat)
    requires 0 < bits < 256 && i < |keys| && j < bits
    ensures i * bits + j < i * bits + bits <= |keys| * bits
    ensures HashStream(hash, keys, bits)[i * bits + j] == BitAt(hash(keys[i]), j)
  {
    FieldInRange(i, j, bits, |keys|);
    FieldPosition(i, j, bits);
  }

  ghost predicate FieldHolds(stream: seq<bool>, start: nat, digest: Digest, bits: nat)
    requires bits < 256
  {
    && start + bits <= |stream|
    && forall j | 0 <= j < bits :: stream[start + j] == BitAt(digest, j)
  }

  lemma {:induction false} FieldHoldsDigest(hash: Hasher, keys: seq<Key>, bits: nat, i: nat, stream: seq<bool>,
                                            start: nat)
    requires 0 < bits < 256 && i < |keys|
    requires stream == HashStream(hash, keys, bits) && start == i * bits
    ensures FieldHolds(stream, start, hash(keys[i]), bits)
  {
    var digest := hash(keys[i]);
    StreamBit(hash, keys, bits, i, 0);
    forall j | 0 <= j < bits
      ensures stream[start + j] == BitAt(digest, j)
    {
      StreamBit(hash, keys, bits, i, j);
    }
  }

  lemma {:induction false} FieldAfterPack(hash: Hasher, keys: seq<Key>, bits: nat, bytes: seq<bv8>, i: nat)
    requires 0 < bits < 256 && i < |keys| && Packs(bytes, HashStream(hash, keys, bits))
    ensures FieldFits(bytes, bits, i)
    ensures UnpackField(bytes, bits, i) == Unpack(hash(keys[i]))[..bits]
  {
    var stream, start := HashStream(hash, keys, bits), i * bits;
    FieldHoldsDigest(hash, keys, bits, i, stream, start);
    assert (i + 1) * bits == start + bits;
    PackedField(bytes, stream, start, hash(keys[i]), bits);
    assert UnpackField(bytes, bits, i) == Unpack(bytes)[start..start + bits];
  }

  lemma {:induction false} PackedField(bytes: seq<bv8>, stream: seq<bool>, start: nat, digest: Digest, bits: nat)
    requires bits < 256 && Packs(bytes, stream) && FieldHolds(stream, start, digest, bits)
    ensures start + bits <= 8 * |bytes| && Unpack(bytes)[start..start + bits] == Unpack(digest)[..bits]
  {
    forall j | 0 <= j < bits
      ensures Unpack(bytes)[start + j] == Unpack(digest)[j]
    {
      assert Unpack(bytes)[..|stream|][start + j] == stream[start + j];
    }
  }

  /**
   * Unpacking gives back the leading digest bits of every key in order, the length is
   * exact, and the bits after the last field are zero.
   */
  lemma {:induction false} UnpackAfterPack(hash: Hasher, keys: seq<Key>, bits: nat)
    requires 0 < bits < 256
    ensures var bytes := PackedHashes(hash, keys, bits);
            && |bytes| == ByteLen(|keys| * bits)
            && (forall p | |keys| * bits <= p < 8 * |bytes| :: !BitAt(bytes, p))
            && forall i | 0 <= i < |keys| ::
                 FieldFits(bytes, bits, i) && UnpackField(bytes, bits, i) == Unpack(hash(keys[i]))[..bits]
  {
    var stream := HashStream(hash, keys, bits);
    var bytes := PackedHashes(hash, keys, bits);
    PackPacks(stream);
    forall i | 0 <= i < |keys|
      ensures FieldFits(bytes, bits, i)
      ensures UnpackField(bytes, bits, i) == Unpack(hash(keys[i]))[..bits]
    {
      FieldAfterPack(hash, keys, bits, bytes, i);
    }
  }

  /** The first `n` bits of `stream` are set in `bytes` and no other bit is. */
  ghost predicate Filled(bytes: seq<bv8>, stream: seq<bool>, n: nat) {
    forall p | 0 <= p < 8 * |bytes| :: BitAt(bytes, p) == (p < n && p < |stream| && stream[p])
  }

  lemma {:induction false} FillNext(bytes: seq<bv8>, after: seq<bv8>, stream: seq<bool>, n: nat)
    requires Filled(bytes, stream, n) && n < |stream| && n < 8 * |bytes|
    requires after == if stream[n] then bytes[n / 8 := bytes[n / 8] | Mask(n % 8)] else bytes
    ensures Filled(after, stream, n + 1)
  {
    SetBits(bytes, n);
  }

  lemma {:induction false} FilledIsPacked(bytes: seq<bv8>, stream: seq<bool>)
    requires Filled(bytes, stream, |stream|) && |bytes| == ByteLen(|stream|)
    ensures bytes == Pack(stream)
  {
    PackPacks(stream);
    assert Unpack(bytes)[..|stream|] == stream;
    PackingIsUnique(bytes, Pack(stream), stream);
  }

  method PackHashes(hash: Hasher, keys: seq<Key>, bits: nat) returns (packed: seq<bv8>)
    requires bits < 256
    ensures packed == PackedHashes(hash, keys, bits)
  {
    if bits == 0 {
      return [];
    }
    ghost var stream := HashStream(hash, keys, bits);
    var len := PackedLen(|keys|, bits);
    PackedLenCovers(|stream|, len);
    var out := new bv8[len](i => 0);
    var outBit := 0;
    ZeroBytes(out[..], stream);
    for k := 0 to |keys|
      invariant outBit == k * bits && |out[..]| == len && Filled(out[..], stream, outBit)
    {
      var digest := hash(keys[k]);
      FieldHoldsDigest(hash, keys, bits, k, stream, outBit);
      PackField(out, digest, bits, outBit, stream);
      outBit := outBit + bits;
      assert (k + 1) * bits == k * bits + bits;
    }
    packed := out[..];
    FilledIsPacked(packed, stream);
  }

  lemma {:induction false} PackedLenCovers(n: nat, len: nat)
    requires len == ByteLen(n)
    ensures n <= 8 * len
  {
  }

  /** Writes the first `bits` bits of `digest` at bit position `start` of `out`. */
  method PackField(out: array<bv8>, digest: Digest, bits: nat, start: nat, ghost stream: seq<bool>)
    requires bits < 256 && |stream| <= 8 * out.Length && Filled(out[..], stream, start)
    requires FieldHolds(stream, start, digest, bits)
    modifies out
    ensures Filled(out[..], stream, start + bits)
  {
    for bit := 0 to bits
      invariant Filled(out[..], stream, start + bit)
    {
      var outBit := start + bit;
      ghost var before := out[..];
      assert stream[start + bit] == BitAt(digest, bit);
      if BitAt(digest, bit) {
        out[outBit / 8] := out[outBit / 8] | Mask(outBit % 8);
      }
      FillNext(before, out[..], stream, outBit);
    }
  }

  lemma {:induction false} ZeroBytes(bytes: seq<bv8>, stream: seq<bool>)
    requires forall i | 0 <= i < |bytes| :: bytes[i] == 0
    ensures Filled(bytes, stream, 0)
  {
    forall p | 0 <= p < 8 * |bytes|
      ensures !BitAt(bytes, p)
    {
      ZeroBit(p % 8);
    }
  }

  lemma {:induction false} ZeroBit(k: nat)
    requires k < 8
    ensures !ByteBit(0, k)
  {
    assert (0 as bv8) & Mask(k) == 0;
  }
}
