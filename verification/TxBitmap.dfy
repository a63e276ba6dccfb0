/** One bit per transaction, least significant bit of each byte first; 1 means skipped. */
module TxBitmap {
  import opened Words

  predicate TxBit(bitmap: seq<bv8>, tx: nat)
    requires tx < 8 * |bitmap|
  {
    ByteBit(bitmap[tx / 8], 7 - tx % 8)
  }

  /** Canonical length and zero padding. */
  predicate ValidBitmap(txCount: nat, bitmap: seq<bv8>) {
    && |bitmap| == ByteLen(txCount)
    && forall tx | txCount <= tx < 8 * |bitmap| :: !TxBit(bitmap, tx)
  }

  /** The bits of a byte at and above position `used`, least significant first. */
  function PaddingMask(used: nat): bv8
    requires used < 8
  {
    match used
    case 0 => 0xff
    case 1 => 0xfe
    case 2 => 0xfc
    case 3 => 0xf8
    case 4 => 0xf0
    case 5 => 0xe0
    case 6 => 0xc0
    case _ => 0x80
  }

  lemma {:induction false} PaddingMaskBits(b: bv8, used: nat)
    requires used < 8
    ensures b & PaddingMask(used) == 0 <==> forall k: nat | k < 8 - used :: !ByteBit(b, k)
  {
    if forall k: nat | k < 8 - used :: !ByteBit(b, k) {
      assert !ByteBit(b, 0);
      assert used <= 6 ==> !ByteBit(b, 1);
      assert used <= 5 ==> !ByteBit(b, 2);
      assert used <= 4 ==> !ByteBit(b, 3);
      assert used <= 3 ==> !ByteBit(b, 4);
      assert used <= 2 ==> !ByteBit(b, 5);
      assert used <= 1 ==> !ByteBit(b, 6);
      assert used <= 0 ==> !ByteBit(b, 7);
    }
  }

  /** Only the last byte of a bitmap of the right length can hold padding. */
  lemma {:induction false} PaddingIsLast(txCount: nat, bitmap: seq<bv8>)
    requires |bitmap| == ByteLen(txCount) && txCount % 8 > 0
    ensures |bitmap| > 0
    ensures var last := bitmap[|bitmap| - 1];
            ValidBitmap(txCount, bitmap) <==> forall k: nat | k < 8 - txCount % 8 :: !ByteBit(last, k)
  {
    var lastByte := |bitmap| - 1;
    var last := bitmap[lastByte];
    assert txCount == 8 * lastByte + txCount % 8;
    if ValidBitmap(txCount, bitmap) {
      forall k: nat | k < 8 - txCount % 8
        ensures !ByteBit(last, k)
      {
        assert !TxBit(bitmap, 8 * lastByte + (7 - k));
      }
    } else {
      var tx: nat :| txCount <= tx < 8 * |bitmap| && TxBit(bitmap, tx);
      assert ByteBit(last, 7 - tx % 8);
    }
  }

  /** The masked test of the last byte decides zero padding. */
  method ValidateBitmap(txCount: nat, bitmap: seq<bv8>) returns (ok: bool)
    ensures ok <==> ValidBitmap(txCount, bitmap)
  {
    if |bitmap| != ByteLen(txCount) {
      return false;
    }
    var usedBits := txCount % 8;
    if usedBits > 0 && |bitmap| > 0 {
      var last := bitmap[|bitmap| - 1];
      PaddingIsLast(txCount, bitmap);
      PaddingMaskBits(last, usedBits);
      return last & PaddingMask(usedBits) == 0;
    }
    ok := true;
  }

  /** The transactions below `n` that are not skipped, in order. */
  function Unskipped(bitmap: seq<bv8>, n: nat): (txs: seq<nat>)
    requires n <= 8 * |bitmap|
    ensures |txs| <= n
    ensures forall i | 0 <= i < |txs| :: txs[i] < n && !TxBit(bitmap, txs[i])
  {
    if n == 0 then []
    else Unskipped(bitmap, n - 1) + (if TxBit(bitmap, n - 1) then [] else [n - 1])
  }

  /** Number of skipped transactions below `n`. */
  function SkippedCount(bitmap: seq<bv8>, n: nat): (count: nat)
    requires n <= 8 * |bitmap|
  {
    if n == 0 then 0
    else SkippedCount(bitmap, n - 1) + (if TxBit(bitmap, n - 1) then 1 else 0)
  }

  lemma {:induction false} SkippedAndUnskipped(bitmap: seq<bv8>, n: nat)
    requires n <= 8 * |bitmap|
    ensures SkippedCount(bitmap, n) + |Unskipped(bitmap, n)| == n
  {
    if n > 0 { SkippedAndUnskipped(bitmap, n - 1); }
  }

  lemma {:induction false} UnskippedPrefix(bitmap: seq<bv8>, m: nat, n: nat)
    requires m <= n <= 8 * |bitmap|
    ensures Unskipped(bitmap, m) <= Unskipped(bitmap, n)
  {
    if m < n { UnskippedPrefix(bitmap, m, n - 1); }
  }

  /** `bitmap` with the bit of `tx` set. */
  function WithTx(bitmap: seq<bv8>, tx: nat): seq<bv8>
    requires tx < 8 * |bitmap|
  {
    bitmap[tx / 8 := bitmap[tx / 8] | Mask(7 - tx % 8)]
  }

  lemma {:induction false} WithTxBit(bitmap: seq<bv8>, tx: nat, i: nat)
    requires tx < 8 * |bitmap| && i < 8 * |bitmap|
    ensures TxBit(WithTx(bitmap, tx), i) == (i == tx || TxBit(bitmap, i))
  {
    if i / 8 == tx / 8 { SetByteBit(bitmap[tx / 8], 7 - tx % 8, 7 - i % 8); }
  }

  lemma {:induction false} WithTxBits(bitmap: seq<bv8>, tx: nat)
    requires tx < 8 * |bitmap|
    ensures forall i | 0 <= i < 8 * |bitmap| ::
      TxBit(WithTx(bitmap, tx), i) == (i == tx || TxBit(bitmap, i))
  {
    forall i | 0 <= i < 8 * |bitmap|
      ensures TxBit(WithTx(bitmap, tx), i) == (i == tx || TxBit(bitmap, i))
    {
      WithTxBit(bitmap, tx, i);
    }
  }

  lemma {:induction false} WithTxValid(txCount: nat, bitmap: seq<bv8>, tx: nat)
    requires ValidBitmap(txCount, bitmap) && tx < txCount
    ensures tx < 8 * |bitmap| && ValidBitmap(txCount, WithTx(bitmap, tx))
  {
    WithTxBits(bitmap, tx);
  }

  lemma {:induction false} RemoveThenAppend(front: seq<nat>, at: nat, last: nat)
    requires at < |front|
    ensures (front + [last])[..at] + (front + [last])[at + 1..] == front[..at] + front[at + 1..] + [last]
  {
  }

  /** The numbers below `n` that `bit` does not mark, in order. */
  function Clear(bit: nat -> bool, n: nat): (txs: seq<nat>)
    ensures |txs| <= n
    ensures forall i | 0 <= i < |txs| :: txs[i] < n
  {
    if n == 0 then [] else Clear(bit, n - 1) + (if bit(n - 1) then [] else [n - 1])
  }

  lemma {:induction false} ClearBefore(bit: nat -> bool, tx: nat, n: nat)
    requires n <= tx
    ensures Clear((i: nat) => i == tx || bit(i), n) == Clear(bit, n)
  {
    if n > 0 { ClearBefore(bit, tx, n - 1); }
  }

  /** Marking one more number removes exactly that one. */
  lemma {:induction false} ClearWithout(bit: nat -> bool, n: nat, at: nat)
    requires at < |Clear(bit, n)|
    ensures var txs := Clear(bit, n);
            Clear((i: nat) => i == txs[at] || bit(i), n) == txs[..at] + txs[at + 1..]
  {
    var front := Clear(bit, n - 1);
    if at < |front| {
      ClearWithout(bit, n - 1, at);
      if !bit(n - 1) { RemoveThenAppend(front, at, n - 1); }
    } else {
      ClearBefore(bit, n - 1, n - 1);
    }
  }

  lemma {:induction false} UnskippedIsClear(bitmap: seq<bv8>, bit: nat -> bool, n: nat)
    requires n <= 8 * |bitmap| && forall i | 0 <= i < n :: bit(i) == TxBit(bitmap, i)
    ensures Unskipped(bitmap, n) == Clear(bit, n)
  {
    if n > 0 { UnskippedIsClear(bitmap, bit, n - 1); }
  }

  /** Setting one bit removes exactly that transaction from the unskipped ones. */
  lemma {:induction false} UnskippedWithout(bitmap: seq<bv8>, n: nat, at: nat)
    requires n <= 8 * |bitmap| && at < |Unskipped(bitmap, n)|
    ensures var txs := Unskipped(bitmap, n);
            Unskipped(WithTx(bitmap, txs[at]), n) == txs[..at] + txs[at + 1..]
  {
    var bit := (i: nat) => i < 8 * |bitmap| && TxBit(bitmap, i);
    var tx := Unskipped(bitmap, n)[at];
    UnskippedIsClear(bitmap, bit, n);
    ClearWithout(bit, n, at);
    WithTxBits(bitmap, tx);
    UnskippedIsClear(WithTx(bitmap, tx), (i: nat) => i == tx || bit(i), n);
  }

  lemma {:induction false} SkippedBefore(bitmap: seq<bv8>, tx: nat, n: nat)
    requires n <= tx < 8 * |bitmap|
    ensures SkippedCount(WithTx(bitmap, tx), n) == SkippedCount(bitmap, n)
  {
    if n > 0 {
      SkippedBefore(bitmap, tx, n - 1);
      WithTxBit(bitmap, tx, n - 1);
    }
  }

  /** Setting a clear bit adds one skipped transaction. */
  lemma {:induction false} OneMoreSkipped(bitmap: seq<bv8>, tx: nat, n: nat)
    requires tx < n <= 8 * |bitmap| && !TxBit(bitmap, tx)
    ensures SkippedCount(WithTx(bitmap, tx), n) == SkippedCount(bitmap, n) + 1
  {
    WithTxBit(bitmap, tx, n - 1);
    if tx == n - 1 {
      SkippedBefore(bitmap, tx, n - 1);
    } else {
      OneMoreSkipped(bitmap, tx, n - 1);
    }
  }

  /** Sets the bit of `tx` in place. */
  method SetSkipped(txCount: nat, bitmap: array<bv8>, tx: nat) returns (ok: bool)
    modifies bitmap
    ensures ok <==> ValidBitmap(txCount, old(bitmap[..])) && tx < txCount
    ensures ok ==> tx < 8 * bitmap.Length && bitmap[..] == WithTx(old(bitmap[..]), tx)
    ensures ok ==> ValidBitmap(txCount, bitmap[..])
    ensures !ok ==> bitmap[..] == old(bitmap[..])
  {
    var valid := ValidateBitmap(txCount, bitmap[..]);
    if !valid || tx >= txCount {
      return false;
    }
    WithTxValid(txCount, bitmap[..], tx);
    bitmap[tx / 8] := bitmap[tx / 8] | Mask(7 - tx % 8);
    assert bitmap[..] == WithTx(old(bitmap[..]), tx);
    return true;
  }

  method CountSkipped(txCount: nat, bitmap: seq<bv8>) returns (count: nat)
    requires ValidBitmap(txCount, bitmap)
    ensures count == SkippedCount(bitmap, txCount)
  {
    count := 0;
    for tx := 0 to txCount
      invariant count == SkippedCount(bitmap, tx)
    {
      if TxBit(bitmap, tx) {
        count := count + 1;
      }
    }
  }

  /** The bitmap of a block in which no transaction is skipped. */
  function EmptyBitmap(txCount: nat): seq<bv8>
  {
    seq(ByteLen(txCount), i => 0)
  }

  lemma {:induction false} EmptyBitmapBits(txCount: nat)
    ensures ValidBitmap(txCount, EmptyBitmap(txCount))
    ensures forall tx | 0 <= tx < 8 * |EmptyBitmap(txCount)| :: !TxBit(EmptyBitmap(txCount), tx)
  {
    forall tx | 0 <= tx < 8 * |EmptyBitmap(txCount)|
      ensures !TxBit(EmptyBitmap(txCount), tx)
    {
      assert (0 as bv8) & Mask(7 - tx % 8) == 0;
    }
  }

  lemma {:induction false} EmptyBitmapCount(txCount: nat, n: nat)
    requires n <= 8 * |EmptyBitmap(txCount)|
    ensures SkippedCount(EmptyBitmap(txCount), n) == 0
  {
    EmptyBitmapBits(txCount);
    if n > 0 { EmptyBitmapCount(txCount, n - 1); }
  }
}
