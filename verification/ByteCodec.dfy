/** Little-endian words, and reading one thing after another from a byte string. */
module ByteCodec {
  import opened Wrappers
  import opened Seqs

  type Byte = b: nat | b < 256

  type Bytes = seq<Byte>

  function Pow256(width: nat): (p: nat)
    ensures p >= 1
  {
    if width == 0 then 1 else 256 * Pow256(width - 1)
  }

  function LittleEndian(n: nat, width: nat): (word: Bytes)
    ensures |word| == width
  {
    if width == 0 then [] else [n % 256] + LittleEndian(n / 256, width - 1)
  }

  function WordValue(word: Bytes): nat {
    if word == [] then 0 else word[0] + 256 * WordValue(word[1..])
  }

  lemma {:induction false} ValueOfWord(n: nat, width: nat)
    requires n < Pow256(width)
    ensures WordValue(LittleEndian(n, width)) == n
  {
    if width > 0 {
      ValueOfWord(n / 256, width - 1);
      assert LittleEndian(n, width)[1..] == LittleEndian(n / 256, width - 1);
    }
  }

  lemma {:induction false} LowByte(low: Byte, high: nat)
    ensures (low + 256 * high) % 256 == low && (low + 256 * high) / 256 == high
  {
  }

  lemma {:induction false} WordOfValue(word: Bytes)
    ensures WordValue(word) < Pow256(|word|) && LittleEndian(WordValue(word), |word|) == word
  {
    if word != [] {
      WordOfValue(word[1..]);
      LowByte(word[0], WordValue(word[1..]));
      assert word == [word[0]] + word[1..];
    }
  }

  // ---- Readers ----------------------------------------------------------------------------------

  /** A reader at a position gives a value and the position after it. */
  type Reader<T, E> = nat -> Result<(T, nat), E>

  ghost predicate Reads<T(!new), E(!new)>(read: Reader<T, E>, pos: nat, x: T, next: nat) {
    match read(pos)
    case Err(_) => false
    case Ok(r) => r.0 == x && r.1 == next
  }

  /** `word` stands at `pos` and ends at `next`. */
  ghost predicate Stands(bytes: Bytes, pos: nat, word: Bytes, next: nat) {
    Occurs(bytes, pos, word) && next == pos + |word|
  }

  /** A reader accepts exactly the encodings of the valid values, wherever they stand. */
  ghost predicate Exact<T(!new), E(!new)>(read: Reader<T, E>, bytes: Bytes, encode: T -> Bytes, valid: T -> bool) {
    forall pos, x, next :: Reads(read, pos, x, next) <==> ExactAt(bytes, encode, valid, pos, x, next)
  }

  ghost predicate ExactAt<T>(bytes: Bytes, encode: T -> Bytes, valid: T -> bool, pos: nat, x: T, next: nat) {
    valid(x) && Stands(bytes, pos, encode(x), next)
  }

  // ---- Lists --------------------------------------------------------------------------------------

  /** Reads `n` values one after another. */
  function ReadMany<T, E>(read: Reader<T, E>, pos: nat, n: nat): (r: Result<(seq<T>, nat), E>)
    ensures r.Ok? ==> |r.value.0| == n
  {
    if n == 0 then Ok(([], pos))
    else
      match ReadMany(read, pos, n - 1)
      case Err(e) => Err(e)
      case Ok(front) =>
        match read(front.1)
        case Err(e) => Err(e)
        case Ok(last) => Ok((front.0 + [last.0], last.1))
  }

  function EncodeMany<T>(encode: T -> Bytes, items: seq<T>): Bytes {
    if items == [] then [] else EncodeMany(encode, items[..|items| - 1]) + encode(items[|items| - 1])
  }

  ghost predicate AllValid<T>(valid: T -> bool, items: seq<T>) {
    forall i | 0 <= i < |items| :: valid(items[i])
  }

  lemma {:induction false} ManyFail<T, E>(read: Reader<T, E>, pos: nat, n: nat, larger: nat)
    requires n <= larger && ReadMany(read, pos, n).Err?
    ensures ReadMany(read, pos, larger) == ReadMany(read, pos, n)
  {
    if n < larger { ManyFail(read, pos, n, larger - 1); }
  }

  lemma {:induction false} StandsConcat(bytes: Bytes, pos: nat, a: Bytes, b: Bytes, next: nat)
    ensures Stands(bytes, pos, a + b, next) <==> Stands(bytes, pos, a, pos + |a|) && Stands(bytes, pos + |a|, b, next)
  {
    OccursConcat(bytes, pos, a, b);
  }

  /** An exact reader repeated `n` times accepts exactly the encodings of `n` valid values. */
  lemma {:induction false} ManyExact<T(!new), E(!new)>(read: Reader<T, E>, bytes: Bytes, encode: T -> Bytes,
                                                       valid: T -> bool, pos: nat, n: nat, items: seq<T>, next: nat)
    requires Exact(read, bytes, encode, valid) && pos <= |bytes|
    ensures ReadMany(read, pos, n) == Ok((items, next))
       <==> |items| == n && AllValid(valid, items) && Stands(bytes, pos, EncodeMany(encode, items), next)
  {
    if n > 0 && |items| == n {
      var front, last := items[..n - 1], items[n - 1];
      var mid := pos + |EncodeMany(encode, front)|;
      ManyExact(read, bytes, encode, valid, pos, n - 1, front, mid);
      StandsConcat(bytes, pos, EncodeMany(encode, front), encode(last), next);
      assert Reads(read, mid, last, next) <==> ExactAt(bytes, encode, valid, mid, last, next);
      assert items == front + [last];
      if ReadMany(read, pos, n) == Ok((items, next)) {
        var f := ReadMany(read, pos, n - 1).value;
        assert f.0 == front;
        ManyExact(read, bytes, encode, valid, pos, n - 1, front, f.1);
      }
    }
  }

  // ---- Words in a byte string -----------------------------------------------------------------------

  /** Reads a `width`-byte little-endian word. */
  function ReadWord<E>(bytes: Bytes, pos: nat, width: nat, short: E): Result<(nat, nat), E> {
    if pos + width > |bytes| then Err(short)
    else Ok((WordValue(bytes[pos..pos + width]), pos + width))
  }

  lemma {:induction false} WordStands<E>(bytes: Bytes, pos: nat, width: nat, short: E, n: nat, next: nat)
    ensures ReadWord(bytes, pos, width, short) == Ok((n, next))
       <==> n < Pow256(width) && Stands(bytes, pos, LittleEndian(n, width), next)
  {
    OccursSlice(bytes, pos, LittleEndian(n, width));
    if pos + width <= |bytes| {
      WordOfValue(bytes[pos..pos + width]);
      if n < Pow256(width) { ValueOfWord(n, width); }
    }
  }

  lemma {:induction false} Widths()
    ensures Pow256(2) == 0x1_0000 && Pow256(4) == 0x1_0000_0000 && Pow256(8) == 0x1_0000_0000_0000_0000
  {
    assert Pow256(2) == 256 * Pow256(1);
    assert Pow256(4) == 256 * Pow256(3);
    assert Pow256(6) == 256 * Pow256(5);
    assert Pow256(8) == 256 * Pow256(7);
  }

  /** The bytes `pos .. pos + len`, if there are that many. */
  function ReadBytes<E>(bytes: Bytes, pos: nat, len: nat, short: E): Result<(Bytes, nat), E> {
    if pos + len > |bytes| then Err(short) else Ok((bytes[pos..pos + len], pos + len))
  }

  lemma {:induction false} BytesStand<E>(bytes: Bytes, pos: nat, len: nat, short: E, body: Bytes, next: nat)
    ensures ReadBytes(bytes, pos, len, short) == Ok((body, next)) <==> |body| == len && Stands(bytes, pos, body, next)
  {
    OccursSlice(bytes, pos, body);
  }
}
