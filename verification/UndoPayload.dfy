/** The block undo payload: counts, values and scripts of the outputs a block spends. */
module UndoPayload {
  import opened Wrappers
  import opened Words
  import opened Seqs
  import opened ByteCodec

  datatype UndoError = UnexpectedEnd | NonCanonical | NegativeValue | TrailingBytes

  datatype SpentTxOut = SpentTxOut(valueSat: nat, scriptPubkey: Bytes)

  // ---- CompactSize ------------------------------------------------------------------------------------

  function EncodeSize(n: nat): Bytes
    requires n <= U64_MAX
  {
    if n <= 0xfc then [n]
    else if n <= 0xffff then [0xfd] + LittleEndian(n, 2)
    else if n <= 0xffff_ffff then [0xfe] + LittleEndian(n, 4)
    else [0xff] + LittleEndian(n, 8)
  }

  /** A word of `width` bytes that must exceed `limit`. */
  function ReadLarge(bytes: Bytes, pos: nat, width: nat, limit: nat): Result<(nat, nat), UndoError> {
    match ReadWord(bytes, pos, width, UnexpectedEnd)
    case Err(e) => Err(e)
    case Ok(r) => if r.0 <= limit then Err(NonCanonical) else Ok(r)
  }

  function ReadSize(bytes: Bytes, pos: nat): Result<(nat, nat), UndoError> {
    if pos >= |bytes| then Err(UnexpectedEnd)
    else if bytes[pos] <= 0xfc then Ok((bytes[pos], pos + 1))
    else if bytes[pos] == 0xfd then ReadLarge(bytes, pos + 1, 2, 0xfc)
    else if bytes[pos] == 0xfe then ReadLarge(bytes, pos + 1, 4, 0xffff)
    else ReadLarge(bytes, pos + 1, 8, 0xffff_ffff)
  }

  lemma {:induction false} TagStands(bytes: Bytes, pos: nat, tag: Byte, word: Bytes, next: nat)
    ensures Stands(bytes, pos, [tag] + word, next)
        <==> pos < |bytes| && bytes[pos] == tag && Stands(bytes, pos + 1, word, next)
  {
    StandsConcat(bytes, pos, [tag], word, next);
    ByteStands(bytes, pos, tag);
  }

  lemma {:induction false} ByteStands(bytes: Bytes, pos: nat, b: Byte)
    ensures Stands(bytes, pos, [b], pos + 1) <==> pos < |bytes| && bytes[pos] == b
  {
    if Stands(bytes, pos, [b], pos + 1) {
      assert bytes[pos + 0] == [b][0];
    }
  }

  /** A size is read exactly where its shortest encoding stands. */
  lemma {:induction false} SizeIff(bytes: Bytes, pos: nat, n: nat, next: nat)
    ensures ReadSize(bytes, pos) == Ok((n, next)) <==> n <= U64_MAX && Stands(bytes, pos, EncodeSize(n), next)
  {
    Widths();
    WordStands(bytes, pos + 1, 2, UnexpectedEnd, n, next);
    WordStands(bytes, pos + 1, 4, UnexpectedEnd, n, next);
    WordStands(bytes, pos + 1, 8, UnexpectedEnd, n, next);
    TagStands(bytes, pos, 0xfd, LittleEndian(n, 2), next);
    TagStands(bytes, pos, 0xfe, LittleEndian(n, 4), next);
    TagStands(bytes, pos, 0xff, LittleEndian(n, 8), next);
    if n <= 0xfc { ByteStands(bytes, pos, n); }
  }

  // ---- Spent outputs ------------------------------------------------------------------------------------

  const MAX_VALUE: nat := 0x7fff_ffff_ffff_ffff

  /** The value is positive as a signed word: its top bit is clear. */
  predicate FitsOut(out: SpentTxOut) {
    2 * out.valueSat <= U64_MAX && |out.scriptPubkey| <= U64_MAX
  }

  function EncodeOut(out: SpentTxOut): Bytes {
    LittleEndian(out.valueSat, 8) + EncodeScript(out.scriptPubkey)
  }

  function EncodeScript(script: Bytes): Bytes {
    if |script| > U64_MAX then [] else EncodeSize(|script|) + script
  }

  /** An eight-byte value; one with the sign bit is negative. */
  function ReadValue(bytes: Bytes, pos: nat): Result<(nat, nat), UndoError> {
    match ReadWord(bytes, pos, 8, UnexpectedEnd)
    case Err(e) => Err(e)
    case Ok(r) => if r.0 > MAX_VALUE then Err(NegativeValue) else Ok(r)
  }

  function ReadScript(bytes: Bytes, pos: nat): Result<(Bytes, nat), UndoError> {
    match ReadSize(bytes, pos)
    case Err(e) => Err(e)
    case Ok(len) => ReadBytes(bytes, len.1, len.0, UnexpectedEnd)
  }

  function ReadOut(bytes: Bytes, pos: nat): Result<(SpentTxOut, nat), UndoError> {
    match ReadValue(bytes, pos)
    case Err(e) => Err(e)
    case Ok(value) =>
      match ReadScript(bytes, value.1)
      case Err(e) => Err(e)
      case Ok(script) => Ok((SpentTxOut(value.0, script.0), script.1))
  }

  function OutReader(bytes: Bytes): Reader<SpentTxOut, UndoError> {
    pos => ReadOut(bytes, pos)
  }

  lemma {:induction false} ScriptIff(bytes: Bytes, pos: nat, script: Bytes, next: nat)
    ensures ReadScript(bytes, pos) == Ok((script, next))
        <==> |script| <= U64_MAX && Stands(bytes, pos, EncodeScript(script), next)
  {
    if |script| <= U64_MAX {
      var mid := pos + |EncodeSize(|script|)|;
      SizeIff(bytes, pos, |script|, mid);
      BytesStand(bytes, mid, |script|, UnexpectedEnd, script, next);
      StandsConcat(bytes, pos, EncodeSize(|script|), script, next);
    }
    if ReadSize(bytes, pos).Ok? {
      var len := ReadSize(bytes, pos).value;
      SizeIff(bytes, pos, len.0, len.1);
      BytesStand(bytes, len.1, len.0, UnexpectedEnd, script, next);
    }
  }

  lemma {:induction false} OutIff(bytes: Bytes, pos: nat, out: SpentTxOut, next: nat)
    ensures ReadOut(bytes, pos) == Ok((out, next)) <==> FitsOut(out) && Stands(bytes, pos, EncodeOut(out), next)
  {
    Widths();
    WordStands(bytes, pos, 8, UnexpectedEnd, out.valueSat, pos + 8);
    ScriptIff(bytes, pos + 8, out.scriptPubkey, next);
    StandsConcat(bytes, pos, LittleEndian(out.valueSat, 8), EncodeScript(out.scriptPubkey), next);
  }

  lemma {:induction false} OutExact(bytes: Bytes)
    ensures Exact(OutReader(bytes), bytes, EncodeOut, FitsOut)
  {
    forall pos: nat, x: SpentTxOut, next: nat
      ensures Reads(OutReader(bytes), pos, x, next) <==> ExactAt(bytes, EncodeOut, FitsOut, pos, x, next)
    {
      OutIff(bytes, pos, x, next);
    }
  }

  // ---- Transactions and the payload -----------------------------------------------------------------------

  ghost predicate FitsTx(outs: seq<SpentTxOut>) {
    |outs| <= U64_MAX && AllValid(FitsOut, outs)
  }

  function EncodeTx(outs: seq<SpentTxOut>): Bytes {
    if |outs| > U64_MAX then [] else EncodeSize(|outs|) + EncodeMany(EncodeOut, outs)
  }

  function ReadTx(bytes: Bytes, pos: nat): Result<(seq<SpentTxOut>, nat), UndoError> {
    match ReadSize(bytes, pos)
    case Err(e) => Err(e)
    case Ok(count) => ReadMany(OutReader(bytes), count.1, count.0)
  }

  function TxReader(bytes: Bytes): Reader<seq<SpentTxOut>, UndoError> {
    pos => ReadTx(bytes, pos)
  }

  ghost predicate FitsPayload(txs: seq<seq<SpentTxOut>>) {
    |txs| <= U64_MAX && forall i | 0 <= i < |txs| :: FitsTx(txs[i])
  }

  function EncodePayload(txs: seq<seq<SpentTxOut>>): Bytes
    requires |txs| <= U64_MAX
  {
    EncodeSize(|txs|) + EncodeMany(EncodeTx, txs)
  }

  function DecodePayload(bytes: Bytes): Result<seq<seq<SpentTxOut>>, UndoError> {
    match ReadSize(bytes, 0)
    case Err(e) => Err(e)
    case Ok(count) =>
      match ReadMany(TxReader(bytes), count.1, count.0)
      case Err(e) => Err(e)
      case Ok(r) => if r.1 != |bytes| then Err(TrailingBytes) else Ok(r.0)
  }

  lemma {:induction false} CountedOuts(bytes: Bytes, pos: nat, count: nat, outs: seq<SpentTxOut>, next: nat)
    requires pos <= |bytes|
    ensures ReadMany(OutReader(bytes), pos, count) == Ok((outs, next))
       <==> |outs| == count && AllValid(FitsOut, outs) && Stands(bytes, pos, EncodeMany(EncodeOut, outs), next)
  {
    OutExact(bytes);
    ManyExact(OutReader(bytes), bytes, EncodeOut, FitsOut, pos, count, outs, next);
  }

  /** A transaction's encoding is read back. */
  lemma {:induction false} TxAfterEncode(bytes: Bytes, pos: nat, outs: seq<SpentTxOut>, next: nat)
    requires FitsTx(outs) && Stands(bytes, pos, EncodeTx(outs), next)
    ensures ReadTx(bytes, pos) == Ok((outs, next))
  {
    var size := EncodeSize(|outs|);
    StandsConcat(bytes, pos, size, EncodeMany(EncodeOut, outs), next);
    SizeIff(bytes, pos, |outs|, pos + |size|);
    TxAfterSize(bytes, pos, pos + |size|, outs, next);
  }

  lemma {:induction false} TxAfterSize(bytes: Bytes, pos: nat, mid: nat, outs: seq<SpentTxOut>, next: nat)
    requires ReadSize(bytes, pos) == Ok((|outs|, mid)) && AllValid(FitsOut, outs)
    requires Stands(bytes, mid, EncodeMany(EncodeOut, outs), next)
    ensures ReadTx(bytes, pos) == Ok((outs, next))
  {
    CountedOuts(bytes, mid, |outs|, outs, next);
  }

  /** What is read is a transaction's encoding. */
  lemma {:induction false} TxIsCanonical(bytes: Bytes, pos: nat, outs: seq<SpentTxOut>, next: nat)
    requires ReadTx(bytes, pos) == Ok((outs, next))
    ensures FitsTx(outs) && Stands(bytes, pos, EncodeTx(outs), next)
  {
    var count := ReadSize(bytes, pos).value;
    SizeIff(bytes, pos, count.0, count.1);
    CountedOuts(bytes, count.1, count.0, outs, next);
    StandsConcat(bytes, pos, EncodeSize(|outs|), EncodeMany(EncodeOut, outs), next);
  }

  lemma {:induction false} TxExact(bytes: Bytes)
    ensures Exact(TxReader(bytes), bytes, EncodeTx, outs => FitsTx(outs))
  {
    forall pos: nat, x: seq<SpentTxOut>, next: nat
      ensures Reads(TxReader(bytes), pos, x, next) <==> ExactAt(bytes, EncodeTx, outs => FitsTx(outs), pos, x, next)
    {
      if ReadTx(bytes, pos) == Ok((x, next)) { TxIsCanonical(bytes, pos, x, next); }
      if FitsTx(x) && Stands(bytes, pos, EncodeTx(x), next) { TxAfterEncode(bytes, pos, x, next); }
    }
  }

  lemma {:induction false} PayloadAfterEncode(bytes: Bytes, txs: seq<seq<SpentTxOut>>)
    requires FitsPayload(txs) && bytes == EncodePayload(txs)
    ensures DecodePayload(bytes) == Ok(txs)
  {
    TxExact(bytes);
    var mid := |EncodeSize(|txs|)|;
    SizeIff(bytes, 0, |txs|, mid);
    StandsConcat(bytes, 0, EncodeSize(|txs|), EncodeMany(EncodeTx, txs), |bytes|);
    OccursSlice(bytes, 0, EncodePayload(txs));
    assert bytes[0..|bytes|] == bytes;
    ManyExact(TxReader(bytes), bytes, EncodeTx, outs => FitsTx(outs), mid, |txs|, txs, |bytes|);
  }

  lemma {:induction false} PayloadIsCanonical(bytes: Bytes, txs: seq<seq<SpentTxOut>>)
    requires DecodePayload(bytes) == Ok(txs)
    ensures FitsPayload(txs) && bytes == EncodePayload(txs)
  {
    TxExact(bytes);
    var count := ReadSize(bytes, 0).value;
    SizeIff(bytes, 0, count.0, count.1);
    ManyExact(TxReader(bytes), bytes, EncodeTx, outs => FitsTx(outs), count.1, count.0, txs, |bytes|);
    StandsConcat(bytes, 0, EncodeSize(|txs|), EncodeMany(EncodeTx, txs), |bytes|);
    OccursSlice(bytes, 0, EncodePayload(txs));
    assert bytes[0..|bytes|] == bytes;
  }

  /** A byte string decodes to `txs` exactly when it is their encoding. */
  lemma {:induction false} DecodeIff(bytes: Bytes, txs: seq<seq<SpentTxOut>>)
    ensures DecodePayload(bytes) == Ok(txs) <==> FitsPayload(txs) && bytes == EncodePayload(txs)
  {
    if FitsPayload(txs) && bytes == EncodePayload(txs) { PayloadAfterEncode(bytes, txs); }
    if DecodePayload(bytes) == Ok(txs) { PayloadIsCanonical(bytes, txs); }
  }

  // ---- The parser as the program runs it ---------------------------------------------------------------------

  class Cursor {
    const bytes: Bytes
    var pos: nat

    ghost predicate Valid()
      reads this
    {
      pos <= |bytes|
    }

    constructor (bytes: Bytes)
      ensures Valid() && this.bytes == bytes && pos == 0
    {
      this.bytes, this.pos := bytes, 0;
    }

    method ReadExact(len: nat) returns (r: Result<Bytes, UndoError>)
      requires Valid()
      modifies this
      ensures Valid()
      ensures match r
              case Err(e) => ReadBytes(bytes, old(pos), len, UnexpectedEnd) == Err(e) && pos == old(pos)
              case Ok(body) => ReadBytes(bytes, old(pos), len, UnexpectedEnd) == Ok((body, pos))
    {
      if |bytes| - pos < len {
        return Err(UnexpectedEnd);
      }
      r := Ok(bytes[pos..pos + len]);
      pos := pos + len;
    }

    method ReadLargeWord(width: nat, limit: nat) returns (r: Result<nat, UndoError>)
      requires Valid()
      modifies this
      ensures Valid()
      ensures match r
              case Err(e) => ReadLarge(bytes, old(pos), width, limit) == Err(e)
              case Ok(n) => ReadLarge(bytes, old(pos), width, limit) == Ok((n, pos))
    {
      var b := ReadExact(width);
      if b.Err? {
        return Err(b.error);
      }
      var value := WordValue(b.value);
      if value <= limit {
        return Err(NonCanonical);
      }
      r := Ok(value);
    }

    method ReadCompactSize() returns (r: Result<nat, UndoError>)
      requires Valid()
      modifies this
      ensures Valid()
      ensures match r
              case Err(e) => ReadSize(bytes, old(pos)) == Err(e)
              case Ok(n) => ReadSize(bytes, old(pos)) == Ok((n, pos))
    {
      if pos == |bytes| {
        return Err(UnexpectedEnd);
      }
      var first := bytes[pos];
      pos := pos + 1;
      if first <= 0xfc {
        return Ok(first);
      }
      if first == 0xfd {
        r := ReadLargeWord(2, 0xfc);
      } else if first == 0xfe {
        r := ReadLargeWord(4, 0xffff);
      } else {
        r := ReadLargeWord(8, 0xffff_ffff);
      }
    }

    method ReadSpentTxOut() returns (r: Result<SpentTxOut, UndoError>)
      requires Valid()
      modifies this
      ensures Valid()
      ensures match r
              case Err(e) => ReadOut(bytes, old(pos)) == Err(e)
              case Ok(out) => ReadOut(bytes, old(pos)) == Ok((out, pos))
    {
      var b := ReadExact(8);
      if b.Err? {
        return Err(b.error);
      }
      var value := WordValue(b.value);
      if value > MAX_VALUE {
        return Err(NegativeValue);
      }
      var len := ReadCompactSize();
      if len.Err? {
        return Err(len.error);
      }
      var script := ReadExact(len.value);
      if script.Err? {
        return Err(script.error);
      }
      r := Ok(SpentTxOut(value, script.value));
    }

    method ReadTxOuts() returns (r: Result<seq<SpentTxOut>, UndoError>)
      requires Valid()
      modifies this
      ensures Valid()
      ensures match r
              case Err(e) => ReadTx(bytes, old(pos)) == Err(e)
              case Ok(outs) => ReadTx(bytes, old(pos)) == Ok((outs, pos))
    {
      var inputCount := ReadCompactSize();
      if inputCount.Err? {
        return Err(inputCount.error);
      }
      ghost var from := pos;
      var inputs := [];
      for i := 0 to inputCount.value
        invariant Valid() && ReadMany(OutReader(bytes), from, i) == Ok((inputs, pos))
      {
        var out := ReadSpentTxOut();
        if out.Err? {
          ManyFail(OutReader(bytes), from, i + 1, inputCount.value);
          return Err(out.error);
        }
        inputs := inputs + [out.value];
      }
      r := Ok(inputs);
    }
  }

  method DecodeSpentTxOutsPayload(bytes: Bytes) returns (r: Result<seq<seq<SpentTxOut>>, UndoError>)
    ensures r == DecodePayload(bytes)
  {
    var cursor := new Cursor(bytes);
    var txCount := cursor.ReadCompactSize();
    if txCount.Err? {
      return Err(txCount.error);
    }
    ghost var from := cursor.pos;
    var txs := [];
    for i := 0 to txCount.value
      invariant cursor.Valid() && ReadMany(TxReader(bytes), from, i) == Ok((txs, cursor.pos))
    {
      var inputs := cursor.ReadTxOuts();
      if inputs.Err? {
        ManyFail(TxReader(bytes), from, i + 1, txCount.value);
        return Err(inputs.error);
      }
      txs := txs + [inputs.value];
    }
    if cursor.pos != |bytes| {
      return Err(TrailingBytes);
    }
    r := Ok(txs);
  }
}
