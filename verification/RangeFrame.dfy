/** The frame around a page of served blocks. */
module RangeFrame {
  import opened Wrappers
  import opened Words
  import opened Seqs
  import opened ByteCodec

  datatype FrameError = TooShort | BadMagic | BadVersion | TruncatedLength | TruncatedBody | TrailingBytes | TooLarge

  /** The letters B, D, S, R. */
  const MAGIC: Bytes := [0x42, 0x44, 0x53, 0x52]

  const VERSION: nat := 1

  const HEADER_LEN: nat := 10

  function ItemLen(payloadLen: nat): nat {
    4 + payloadLen
  }

  predicate FitsWord(message: Bytes) {
    |message| <= U32_MAX
  }

  function EncodeItem(message: Bytes): Bytes {
    LittleEndian(|message|, 4) + message
  }

  function Header(count: nat): Bytes {
    MAGIC + LittleEndian(VERSION, 2) + LittleEndian(count, 4)
  }

  function Frame(messages: seq<Bytes>): Bytes {
    Header(|messages|) + EncodeMany(EncodeItem, messages)
  }

  ghost predicate Frameable(messages: seq<Bytes>) {
    |messages| <= U32_MAX && AllValid(FitsWord, messages)
  }

  function ReadItem(bytes: Bytes, pos: nat): Result<(Bytes, nat), FrameError> {
    match ReadWord(bytes, pos, 4, TruncatedLength)
    case Err(e) => Err(e)
    case Ok(len) => ReadBytes(bytes, len.1, len.0, TruncatedBody)
  }

  function ItemReader(bytes: Bytes): Reader<Bytes, FrameError> {
    pos => ReadItem(bytes, pos)
  }

  function Parse(bytes: Bytes): Result<seq<Bytes>, FrameError> {
    if |bytes| < HEADER_LEN then Err(TooShort)
    else if bytes[..4] != MAGIC then Err(BadMagic)
    else if WordValue(bytes[4..6]) != VERSION then Err(BadVersion)
    else
      match ReadMany(ItemReader(bytes), HEADER_LEN, WordValue(bytes[6..10]))
      case Err(e) => Err(e)
      case Ok(r) => if r.1 != |bytes| then Err(TrailingBytes) else Ok(r.0)
  }

  /** Every frame begins with the letters, version one in two bytes and the number of messages in four. */
  lemma {:induction false} FrameBegins(messages: seq<Bytes>)
    requires |messages| <= U32_MAX
    ensures Header(|messages|) <= Frame(messages) && |Header(|messages|)| == 10
    ensures Frame(messages)[..6] == [0x42, 0x44, 0x53, 0x52, 1, 0] && WordValue(Frame(messages)[6..10]) == |messages|
  {
    Widths();
    ValueOfWord(|messages|, 4);
    assert LittleEndian(VERSION, 2) == [1] + LittleEndian(0, 1) && LittleEndian(0, 1) == [0] + LittleEndian(0, 0);
    assert Frame(messages)[6..10] == LittleEndian(|messages|, 4);
  }

  // ---- Frame and parse are inverse ------------------------------------------------------------------

  lemma {:induction false} ItemExact(bytes: Bytes)
    ensures Exact(ItemReader(bytes), bytes, EncodeItem, FitsWord)
  {
    Widths();
    forall pos: nat, x: Bytes, next: nat
      ensures Reads(ItemReader(bytes), pos, x, next) <==> ExactAt(bytes, EncodeItem, FitsWord, pos, x, next)
    {
      ItemExactAt(bytes, pos, x, next);
    }
  }

  lemma {:induction false} ItemExactAt(bytes: Bytes, pos: nat, x: Bytes, next: nat)
    ensures ReadItem(bytes, pos) == Ok((x, next)) <==> FitsWord(x) && Stands(bytes, pos, EncodeItem(x), next)
  {
    Widths();
    WordStands(bytes, pos, 4, TruncatedLength, |x|, pos + 4);
    BytesStand(bytes, pos + 4, |x|, TruncatedBody, x, next);
    StandsConcat(bytes, pos, LittleEndian(|x|, 4), x, next);
    if ReadItem(bytes, pos).Ok? {
      var len := ReadWord(bytes, pos, 4, TruncatedLength).value;
      BytesStand(bytes, len.1, len.0, TruncatedBody, x, next);
    }
  }

  lemma {:induction false} HeaderStands(bytes: Bytes, count: nat)
    requires count <= U32_MAX
    ensures Stands(bytes, 0, Header(count), HEADER_LEN) <==>
              && |bytes| >= HEADER_LEN
              && bytes[..4] == MAGIC
              && WordValue(bytes[4..6]) == VERSION
              && WordValue(bytes[6..10]) == count
  {
    Widths();
    StandsConcat(bytes, 0, MAGIC + LittleEndian(VERSION, 2), LittleEndian(count, 4), HEADER_LEN);
    StandsConcat(bytes, 0, MAGIC, LittleEndian(VERSION, 2), 6);
    OccursSlice(bytes, 0, MAGIC);
    WordStands(bytes, 4, 2, TooShort, VERSION, 6);
    WordStands(bytes, 6, 4, TooShort, count, 10);
  }

  /** A byte string parses to `messages` exactly when it is their frame. */
  lemma {:induction false} ParseIff(bytes: Bytes, messages: seq<Bytes>)
    ensures Parse(bytes) == Ok(messages) <==> Frameable(messages) && bytes == Frame(messages)
  {
    ItemExact(bytes);
    var items := EncodeMany(EncodeItem, messages);
    if Frameable(messages) && bytes == Frame(messages) {
      OccursSlice(bytes, 0, bytes);
      StandsConcat(bytes, 0, Header(|messages|), items, |bytes|);
      HeaderStands(bytes, |messages|);
      ManyExact(ItemReader(bytes), bytes, EncodeItem, FitsWord, HEADER_LEN, |messages|, messages, |bytes|);
    }
    if Parse(bytes) == Ok(messages) {
      var count := WordValue(bytes[6..10]);
      WordOfValue(bytes[6..10]);
      Widths();
      ManyExact(ItemReader(bytes), bytes, EncodeItem, FitsWord, HEADER_LEN, count, messages, |bytes|);
      HeaderStands(bytes, count);
      StandsConcat(bytes, 0, Header(count), items, |bytes|);
      OccursSlice(bytes, 0, Frame(messages));
      assert bytes[0..|bytes|] == bytes;
    }
  }

  // ---- The program -----------------------------------------------------------------------------------

  method FrameRange(messages: seq<Bytes>) returns (r: Result<Bytes, FrameError>)
    ensures r.Ok? <==> Frameable(messages)
    ensures r.Ok? ==> r.value == Frame(messages)
  {
    if |messages| > U32_MAX {
      return Err(TooLarge);
    }
    var out := MAGIC + LittleEndian(VERSION, 2) + LittleEndian(|messages|, 4);
    assert out + EncodeMany(EncodeItem, messages[..0]) == Header(|messages|);
    for i := 0 to |messages|
      invariant out == Header(|messages|) + EncodeMany(EncodeItem, messages[..i])
      invariant forall j | 0 <= j < i :: FitsWord(messages[j])
    {
      if |messages[i]| > U32_MAX {
        assert !FitsWord(messages[i]);
        return Err(TooLarge);
      }
      TakeNext(messages, i + 1);
      assert messages[..i + 1][..i] == messages[..i];
      Regroup(Header(|messages|), EncodeMany(EncodeItem, messages[..i]), EncodeItem(messages[i]));
      Regroup(out, LittleEndian(|messages[i]|, 4), messages[i]);
      out := out + LittleEndian(|messages[i]|, 4) + messages[i];
    }
    assert messages[..|messages|] == messages;
    r := Ok(out);
  }

  method ParseRange(bytes: Bytes) returns (r: Result<seq<Bytes>, FrameError>)
    ensures r == Parse(bytes)
  {
    if |bytes| < HEADER_LEN {
      return Err(TooShort);
    }
    if bytes[..4] != MAGIC {
      return Err(BadMagic);
    }
    if WordValue(bytes[4..6]) != VERSION {
      return Err(BadVersion);
    }
    var count := WordValue(bytes[6..10]);
    var pos := HEADER_LEN;
    var out := [];
    for i := 0 to count
      invariant ReadMany(ItemReader(bytes), HEADER_LEN, i) == Ok((out, pos))
    {
      if pos + 4 > |bytes| {
        ManyFail(ItemReader(bytes), HEADER_LEN, i + 1, count);
        return Err(TruncatedLength);
      }
      var len := WordValue(bytes[pos..pos + 4]);
      if pos + 4 + len > |bytes| {
        ManyFail(ItemReader(bytes), HEADER_LEN, i + 1, count);
        return Err(TruncatedBody);
      }
      out := out + [bytes[pos + 4..pos + 4 + len]];
      pos := pos + 4 + len;
    }
    if pos != |bytes| {
      return Err(TrailingBytes);
    }
    r := Ok(out);
  }
}
