/** The spent-identifier stream: ascending identifiers as Elias-delta gaps. */
module SpentIds {
  import opened Wrappers
  import opened Words
  import opened Seqs
  import opened EliasDelta

  datatype SpentIdError =
    | FirstOverflow
    | DuplicateId
    | CountOverflow
    | TrailingBytes
    | GapOverflow
    | Codec(error: CodecError)

  predicate AscendingUpTo(ids: seq<nat>, n: nat)
    requires n <= |ids|
  {
    forall i | 0 < i < n :: ids[i - 1] < ids[i]
  }

  predicate Ascending(ids: seq<nat>) {
    AscendingUpTo(ids, |ids|)
  }

  predicate WeaklyAscending(ids: seq<nat>) {
    forall i | 0 < i < |ids| :: ids[i - 1] <= ids[i]
  }

  predicate Distinct<T(==)>(s: seq<T>) {
    forall i, j | 0 <= i < j < |s| :: s[i] != s[j]
  }

  // ---- Sorting --------------------------------------------------------------

  function Insert(sorted: seq<nat>, id: nat): (r: seq<nat>)
    ensures |r| == |sorted| + 1
  {
    if sorted == [] || id <= sorted[0] then [id] + sorted
    else [sorted[0]] + Insert(sorted[1..], id)
  }

  /** The identifiers in ascending order, repetitions kept. */
  function Sorted(ids: seq<nat>): (r: seq<nat>)
    ensures |r| == |ids|
  {
    if ids == [] then [] else Insert(Sorted(ids[1..]), ids[0])
  }

  lemma {:induction false} InsertIsSorted(sorted: seq<nat>, id: nat)
    requires WeaklyAscending(sorted)
    ensures WeaklyAscending(Insert(sorted, id))
    ensures Insert(sorted, id)[0] == (if sorted == [] || id <= sorted[0] then id else sorted[0])
  {
    if sorted != [] && id > sorted[0] {
      var rest := sorted[1..];
      assert WeaklyAscending(rest) by {
        forall i | 0 < i < |rest|
          ensures rest[i - 1] <= rest[i]
        {
          assert sorted[i] <= sorted[i + 1];
        }
      }
      InsertIsSorted(rest, id);
      var r := Insert(sorted, id);
      forall i | 0 < i < |r|
        ensures r[i - 1] <= r[i]
      {
        if i == 1 {
          if rest != [] { assert sorted[0] <= sorted[1]; }
        } else {
          assert Insert(rest, id)[i - 2] <= Insert(rest, id)[i - 1];
        }
      }
    } else {
      var r := Insert(sorted, id);
      forall i | 0 < i < |r|
        ensures r[i - 1] <= r[i]
      {
        if i > 1 { assert sorted[i - 2] <= sorted[i - 1]; }
      }
    }
  }

  lemma {:induction false} InsertAdds(sorted: seq<nat>, id: nat)
    ensures multiset(Insert(sorted, id)) == multiset(sorted) + multiset{id}
  {
    if sorted != [] && id > sorted[0] {
      InsertAdds(sorted[1..], id);
      assert sorted == [sorted[0]] + sorted[1..];
    }
  }

  lemma {:induction false} SortedIsSorted(ids: seq<nat>)
    ensures WeaklyAscending(Sorted(ids))
    ensures multiset(Sorted(ids)) == multiset(ids)
  {
    if ids != [] {
      SortedIsSorted(ids[1..]);
      InsertIsSorted(Sorted(ids[1..]), ids[0]);
      InsertAdds(Sorted(ids[1..]), ids[0]);
      assert ids == [ids[0]] + ids[1..];
    }
  }

  /** Sorting leaves an ascending list as it is. */
  lemma {:induction false} AscendingIsSorted(ids: seq<nat>)
    requires Ascending(ids)
    ensures Sorted(ids) == ids
  {
    if ids != [] {
      var rest := ids[1..];
      forall i | 0 < i < |rest|
        ensures rest[i - 1] < rest[i]
      {
        assert ids[i] < ids[i + 1];
      }
      AscendingIsSorted(rest);
      assert rest != [] ==> ids[0] < ids[1];
      assert ids == [ids[0]] + rest;
    }
  }

  lemma {:induction false} AscendingIsDistinct(ids: seq<nat>, i: nat, j: nat)
    requires Ascending(ids) && i < j < |ids|
    ensures ids[i] < ids[j]
    decreases j
  {
    if i < j - 1 { AscendingIsDistinct(ids, i, j - 1); }
  }

  lemma {:induction false} RepeatedElement<T>(s: seq<T>, i: nat, j: nat)
    requires i < j < |s| && s[i] == s[j]
    ensures multiset(s)[s[i]] >= 2
  {
    assert s == s[..i] + [s[i]] + s[i + 1..];
    assert s[i + 1..][j - i - 1] == s[j];
  }

  lemma {:induction false} HeadNotInTail<T>(s: seq<T>)
    requires Distinct(s) && s != []
    ensures s[0] !in s[1..]
  {
    forall k | 0 <= k < |s| - 1
      ensures s[1..][k] != s[0]
    {
      assert s[0] != s[k + 1];
    }
  }

  lemma {:induction false} DistinctHasNoRepetition<T>(s: seq<T>, x: T)
    requires Distinct(s)
    ensures multiset(s)[x] <= 1
  {
    if s != [] {
      var rest := s[1..];
      forall i, j | 0 <= i < j < |rest|
        ensures rest[i] != rest[j]
      {
        assert s[i + 1] != s[j + 1];
      }
      DistinctHasNoRepetition(rest, x);
      assert s == [s[0]] + rest;
      HeadNotInTail(s);
    }
  }

  /** Sorting yields strictly ascending identifiers exactly when there is no repetition. */
  lemma {:induction false} SortedAscendingIffDistinct(ids: seq<nat>)
    ensures Ascending(Sorted(ids)) <==> Distinct(ids)
  {
    SortedIsSorted(ids);
    var s := Sorted(ids);
    if Ascending(s) {
      forall i, j | 0 <= i < j < |ids|
        ensures ids[i] != ids[j]
      {
        if ids[i] == ids[j] {
          RepeatedElement(ids, i, j);
          forall a, b | 0 <= a < b < |s|
            ensures s[a] != s[b]
          {
            AscendingIsDistinct(s, a, b);
          }
          DistinctHasNoRepetition(s, ids[i]);
        }
      }
    }
    if Distinct(ids) {
      forall i | 0 < i < |s|
        ensures s[i - 1] < s[i]
      {
        if s[i - 1] == s[i] {
          RepeatedElement(s, i - 1, i);
          DistinctHasNoRepetition(ids, s[i]);
        }
      }
    }
  }

  // ---- Gaps -------------------------------------------------------------------

  /** First identifier plus one, then the differences, of the first `n` identifiers. */
  function Gaps(ids: seq<nat>, n: nat): (gaps: seq<nat>)
    requires n <= |ids| && AscendingUpTo(ids, n)
    ensures |gaps| == n && Positive(gaps)
  {
    if n == 0 then []
    else if n == 1 then [ids[0] + 1]
    else
      assert ids[n - 2] < ids[n - 1];
      Gaps(ids, n - 1) + [ids[n - 1] - ids[n - 2]]
  }

  /** The identifiers whose gaps are the first `n` values. */
  function Totals(gaps: seq<nat>, n: nat): (r: Result<seq<nat>, SpentIdError>)
    requires 1 <= n <= |gaps| && Positive(gaps) && Words64(gaps)
    ensures r.Ok? ==> |r.value| == n
  {
    if n == 1 then Ok([gaps[0] - 1])
    else
      match Totals(gaps, n - 1)
      case Err(e) => Err(e)
      case Ok(front) =>
        var id := front[n - 2] + gaps[n - 1];
        if id > U64_MAX then Err(GapOverflow) else Ok(front + [id])
  }

  lemma {:induction false} GapsAre(ids: seq<nat>, n: nat, i: nat)
    requires i < n <= |ids| && AscendingUpTo(ids, n)
    ensures Gaps(ids, n)[i] == if i == 0 then ids[0] + 1 else ids[i] - ids[i - 1]
  {
    if i < n - 1 { GapsAre(ids, n - 1, i); }
  }

  /** Adding the gaps up gives back the identifiers. */
  lemma {:induction false} TotalsOfGaps(ids: seq<nat>, n: nat)
    requires 1 <= n <= |ids| && Ascending(ids) && Words64(ids)
    requires var gaps := Gaps(ids, |ids|); Positive(gaps) && Words64(gaps)
    ensures Totals(Gaps(ids, |ids|), n) == Ok(ids[..n])
  {
    GapsAre(ids, |ids|, n - 1);
    if n > 1 {
      TotalsOfGaps(ids, n - 1);
      TakeNext(ids, n);
    } else {
      assert ids[..1] == [ids[0]];
    }
  }

  lemma {:induction false} TotalsAreWords(gaps: seq<nat>, n: nat)
    requires 1 <= n <= |gaps| && Positive(gaps) && Words64(gaps) && Totals(gaps, n).Ok?
    ensures Words64(Totals(gaps, n).value)
  {
    if n > 1 { TotalsAreWords(gaps, n - 1); }
  }

  /** What adding up accepts ascends, and its gaps are the gaps added up. */
  lemma {:induction false} TotalsAscend(gaps: seq<nat>, n: nat)
    requires 1 <= n <= |gaps| && Positive(gaps) && Words64(gaps) && Totals(gaps, n).Ok?
    ensures var ids := Totals(gaps, n).value; Ascending(ids) && Gaps(ids, n) == gaps[..n]
  {
    if n == 1 {
      assert gaps[..1] == [gaps[0]];
    } else {
      TotalsAscend(gaps, n - 1);
      TakeNext(gaps, n);
      GapsExtend(Totals(gaps, n - 1).value, gaps[n - 1], Totals(gaps, n).value);
    }
  }

  /** One more gap adds one more identifier. */
  lemma {:induction false} GapsExtend(front: seq<nat>, gap: nat, ids: seq<nat>)
    requires front != [] && Ascending(front) && gap > 0 && ids == front + [front[|front| - 1] + gap]
    ensures Ascending(ids) && Gaps(ids, |ids|) == Gaps(front, |front|) + [gap]
  {
    GapsOfPrefix(front, ids, |front|);
  }

  lemma {:induction false} GapsOfPrefix(front: seq<nat>, ids: seq<nat>, n: nat)
    requires n <= |front| && n <= |ids| && AscendingUpTo(front, n)
    requires forall i | 0 <= i < n :: front[i] == ids[i]
    ensures AscendingUpTo(ids, n)
    ensures Gaps(front, n) == Gaps(ids, n)
  {
    if n > 1 { GapsOfPrefix(front, ids, n - 1); }
  }

  // ---- The stream ---------------------------------------------------------------

  /** What the encoder demands: no repetition, and a first value that fits a word. */
  predicate Encodable(ids: seq<nat>) {
    && |ids| <= U32_MAX
    && Distinct(ids)
    && (ids == [] || Sorted(ids)[0] < U64_MAX)
  }

  function EncodedIds(ids: seq<nat>): seq<bv8>
    requires Encodable(ids)
  {
    SortedAscendingIffDistinct(ids);
    Pack(CodeStream(Gaps(Sorted(ids), |ids|)))
  }

  function DecodedIds(count: nat, bytes: seq<bv8>): (r: Result<seq<nat>, SpentIdError>)
    ensures r.Ok? ==> |r.value| == count
  {
    if count == 0 then
      if bytes == [] then Ok([]) else Err(TrailingBytes)
    else
      match ParseMany(Unpack(bytes), count)
      case Err(e) => Err(Codec(e))
      case Ok(p) =>
        ParseManyIsCanonical(Unpack(bytes), count);
        Totals(p.values, count)
  }

  lemma {:induction false} SortedWords(ids: seq<nat>)
    requires Words64(ids)
    ensures Words64(Sorted(ids))
  {
    SortedIsSorted(ids);
    var s := Sorted(ids);
    forall i | 0 <= i < |s|
      ensures s[i] <= U64_MAX
    {
      assert s[i] in multiset(s);
      assert s[i] in ids;
    }
  }

  lemma {:induction false} GapsAreWords(ids: seq<nat>)
    requires Ascending(ids) && Words64(ids) && (ids == [] || ids[0] < U64_MAX)
    ensures Words64(Gaps(ids, |ids|))
  {
    forall i | 0 <= i < |ids|
      ensures Gaps(ids, |ids|)[i] <= U64_MAX
    {
      GapsAre(ids, |ids|, i);
    }
  }

  lemma {:induction false} PackedStreamRoundTrip(gaps: seq<nat>)
    requires Positive(gaps) && Words64(gaps)
    ensures var r := ParseMany(Unpack(Pack(CodeStream(gaps))), |gaps|);
            r.Ok? && r.value.values == gaps
  {
    var bits := CodeStream(gaps);
    PackPacks(bits);
    var all := Unpack(Pack(bits));
    OccursSlice(all, 0, bits);
    ParseManyAfterEncode(all, gaps, |gaps|);
    assert gaps[..|gaps|] == gaps;
  }

  /** Decoding an encoding returns the identifiers in ascending order. */
  lemma {:induction false} SpentIdRoundTrip(ids: seq<nat>)
    requires Words64(ids) && Encodable(ids)
    ensures DecodedIds(|ids|, EncodedIds(ids)) == Ok(Sorted(ids))
  {
    if ids != [] {
      SortedAscendingIffDistinct(ids);
      SortedWords(ids);
      var s := Sorted(ids);
      GapsAreWords(s);
      PackedStreamRoundTrip(Gaps(s, |s|));
      TotalsOfGaps(s, |s|);
      assert s[..|s|] == s;
    }
  }

  /** Every accepted stream holds ascending words and starts with the bits the encoder emits for them. */
  lemma {:induction false} AcceptedStreamIsCanonical(count: nat, bytes: seq<bv8>)
    requires DecodedIds(count, bytes).Ok?
    ensures var ids := DecodedIds(count, bytes).value;
            && Ascending(ids) && Words64(ids)
            && (ids == [] || ids[0] < U64_MAX)
            && Occurs(Unpack(bytes), 0, CodeStream(Gaps(ids, count)))
            && (count <= U32_MAX ==> Encodable(ids) && EncodedIds(ids) == Pack(CodeStream(Gaps(ids, count))))
  {
    if count > 0 {
      var all := Unpack(bytes);
      ParseManyIsCanonical(all, count);
      var gaps := ParseMany(all, count).value.values;
      TotalsAscend(gaps, count);
      TotalsAreWords(gaps, count);
      assert gaps[..count] == gaps;
      GapsAre(DecodedIds(count, bytes).value, count, 0);
    }
    AscendingIsSorted(DecodedIds(count, bytes).value);
    SortedAscendingIffDistinct(DecodedIds(count, bytes).value);
  }

  /** What a byte string must be to hold these identifiers: it begins with their code, or is empty for none. */
  ghost predicate HoldsIds(bytes: seq<bv8>, ids: seq<nat>) {
    && Ascending(ids) && Words64(ids)
    && if ids == [] then bytes == []
       else ids[0] < U64_MAX && Occurs(Unpack(bytes), 0, CodeStream(Gaps(ids, |ids|)))
  }

  /** A byte string decodes to `count` identifiers exactly when it holds them. */
  lemma {:induction false} DecodedIff(count: nat, bytes: seq<bv8>, ids: seq<nat>)
    ensures DecodedIds(count, bytes) == Ok(ids) <==> |ids| == count && HoldsIds(bytes, ids)
  {
    if DecodedIds(count, bytes) == Ok(ids) { AcceptedStreamIsCanonical(count, bytes); }
    if |ids| == count > 0 && HoldsIds(bytes, ids) {
      var gaps := Gaps(ids, count);
      GapsAreWords(ids);
      ParseManyAfterEncode(Unpack(bytes), gaps, count);
      TotalsOfGaps(ids, count);
      assert gaps[..count] == gaps && ids[..count] == ids;
    }
  }

  /** The gaps of sorted identifiers; fails on a repetition or an unencodable first value. */
  method GapsOf(ids: seq<nat>) returns (r: Result<seq<nat>, SpentIdError>)
    requires ids != [] && WeaklyAscending(ids) && Words64(ids)
    ensures r.Ok? <==> Ascending(ids) && ids[0] < U64_MAX
    ensures r.Err? ==> r.error == if ids[0] < U64_MAX then DuplicateId else FirstOverflow
    ensures r.Ok? ==> r.value == Gaps(ids, |ids|)
  {
    var values := [];
    for i := 0 to |ids|
      invariant AscendingUpTo(ids, i) && values == Gaps(ids, i)
      invariant i > 0 ==> ids[0] < U64_MAX
    {
      var value;
      if i == 0 {
        if ids[0] + 1 > U64_MAX {
          return Err(FirstOverflow);
        }
        value := ids[0] + 1;
      } else {
        value := ids[i] - ids[i - 1];
      }
      if value == 0 {
        return Err(DuplicateId);
      }
      values := values + [value];
    }
    r := Ok(values);
  }

  method EncodeSpentIds(spentIds: seq<nat>) returns (r: Result<(nat, seq<bv8>), SpentIdError>)
    requires Words64(spentIds)
    ensures r.Ok? <==> Encodable(spentIds)
    ensures r.Ok? ==> r.value == (|spentIds|, EncodedIds(spentIds))
    ensures r.Err? ==> spentIds != [] && r.error == if Sorted(spentIds)[0] == U64_MAX then FirstOverflow
                                                    else if !Distinct(spentIds) then DuplicateId else CountOverflow
  {
    var ids := Sorted(spentIds);
    SortedIsSorted(spentIds);
    SortedAscendingIffDistinct(spentIds);
    SortedWords(spentIds);
    if |ids| == 0 {
      PackPacks([]);
      return Ok((0, []));
    }
    var gaps := GapsOf(ids);
    if gaps.Err? {
      return Err(gaps.error);
    }
    var values := gaps.value;
    if |values| > U32_MAX {
      return Err(CountOverflow);
    }
    GapsAreWords(ids);
    var bytes := EncodeValues(values);
    PackPacks(CodeStream(values));
    PackingIsUnique(bytes.value, Pack(CodeStream(values)), CodeStream(values));
    r := Ok((|values|, bytes.value));
  }

  method DecodeSpentIds(count: nat, bytes: seq<bv8>) returns (r: Result<seq<nat>, SpentIdError>)
    ensures r == DecodedIds(count, bytes)
  {
    if count == 0 {
      if bytes != [] {
        return Err(TrailingBytes);
      }
      return Ok([]);
    }
    var decoded := DecodeValues(bytes, count);
    match decoded {
      case Err(e) =>
        return Err(Codec(e));
      case Ok(values) =>
        ParseManyIsCanonical(Unpack(bytes), count);
        r := AddUp(values);
    }
  }

  method AddUp(gaps: seq<nat>) returns (r: Result<seq<nat>, SpentIdError>)
    requires gaps != [] && Positive(gaps) && Words64(gaps)
    ensures r == Totals(gaps, |gaps|)
  {
    var uid := gaps[0] - 1;
    var out := [uid];
    for i := 1 to |gaps|
      invariant Totals(gaps, i).Ok? && Totals(gaps, i).value == out
      invariant uid == out[i - 1]
    {
      if uid + gaps[i] > U64_MAX {
        TotalsFailure(gaps, i + 1, |gaps|);
        return Err(GapOverflow);
      }
      uid := uid + gaps[i];
      out := out + [uid];
    }
    r := Ok(out);
  }

  lemma {:induction false} TotalsFailure(gaps: seq<nat>, n: nat, larger: nat)
    requires 1 <= n <= larger <= |gaps| && Positive(gaps) && Words64(gaps)
    requires Totals(gaps, n).Err?
    ensures Totals(gaps, larger) == Totals(gaps, n)
  {
    if n < larger { TotalsFailure(gaps, n, larger - 1); }
  }
}
