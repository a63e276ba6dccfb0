/** Pages of served blocks under a byte cap, and a client that follows them. */
module Paging {
  import opened Wrappers
  import opened Words
  import opened ByteCodec
  import opened RangeFrame

  datatype PageError =
    | ZeroCount
    | CountTooLarge
    | ZeroCap
    | CapTooLarge
    | StartAboveTip
    | CutStartAboveTip
    | CutTipBelowStart
    | CutTipAboveTip
    | CutTipBelowEnd
    | ReadFailed
    | PayloadTooLong

  datatype Limits = Limits(maxCount: nat, maxBytes: nat)

  datatype Query = Query(
    start: nat,
    count: Option<nat>,
    cutThrough: bool,
    cutStart: Option<nat>,
    cutTip: Option<nat>,
    maxBytes: Option<nat>)

  datatype Page = Page(
    messages: seq<Bytes>,
    body: Bytes,
    framedBytes: nat,
    end: nat,
    requestedEnd: nat,
    nextStart: Option<nat>)

  /** The payload served for a height under the query's filter, or a failure. */
  type Archive = nat -> Result<Bytes, PageError>

  // ---- Parameters -------------------------------------------------------------------------------------

  /** The height cut-through starts from: the one given, or else the first of the request when asked for. */
  function CutStart(q: Query): Option<nat> {
    if q.cutStart.Some? then q.cutStart else if q.cutThrough then Some(q.start) else None
  }

  /** The cut-through tip of a response: absent without cut-through, the served tip by default. */
  function ResolveCutTip(cutStart: Option<nat>, cutTip: Option<nat>, tip: nat): Result<Option<nat>, PageError> {
    if cutStart.None? then Ok(None)
    else if cutStart.value > tip then Err(CutStartAboveTip)
    else
      var t := if cutTip.Some? then cutTip.value else tip;
      if t < cutStart.value then Err(CutTipBelowStart)
      else if t > tip then Err(CutTipAboveTip)
      else Ok(Some(t))
  }

  function CoversHeight(cutTip: Option<nat>, height: nat): Result<(), PageError> {
    if cutTip.Some? && cutTip.value < height then Err(CutTipBelowEnd) else Ok(())
  }

  function Or(given: Option<nat>, otherwise: nat): nat {
    if given.Some? then given.value else otherwise
  }

  /** The request asks for height `h`: one of the first `count` from its start on that are served. */
  ghost predicate Asked(q: Query, limits: Limits, tip: nat, h: nat) {
    q.start <= h <= tip && h < q.start + Or(q.count, limits.maxCount)
  }

  /** The last height a request asks for, given the served tip. */
  function RequestedEnd(q: Query, limits: Limits, tip: nat): nat
    requires q.start <= tip && Or(q.count, limits.maxCount) > 0
  {
    var available := tip - q.start + 1;
    var count := Or(q.count, limits.maxCount);
    q.start + (if available <= U32_MAX && available < count then available else count) - 1
  }

  lemma {:induction false} RequestedEndIff(q: Query, limits: Limits, tip: nat, h: nat)
    requires q.start <= tip && 0 < Or(q.count, limits.maxCount) <= U32_MAX
    ensures Asked(q, limits, tip, h) <==> q.start <= h <= RequestedEnd(q, limits, tip)
  {
  }

  ghost predicate LastAsked(q: Query, limits: Limits, tip: nat, h: nat) {
    Asked(q, limits, tip, h) && !Asked(q, limits, tip, h + 1)
  }

  /** The checks before anything is read, first failure first. */
  function Refusal(q: Query, limits: Limits, tip: nat): Option<PageError> {
    if Or(q.count, limits.maxCount) == 0 then Some(ZeroCount)
    else if Or(q.count, limits.maxCount) > limits.maxCount then Some(CountTooLarge)
    else if Or(q.maxBytes, limits.maxBytes) == 0 then Some(ZeroCap)
    else if Or(q.maxBytes, limits.maxBytes) > limits.maxBytes then Some(CapTooLarge)
    else if q.start > tip then Some(StartAboveTip)
    else
      match ResolveCutTip(CutStart(q), q.cutTip, tip)
      case Err(e) => Some(e)
      case Ok(t) =>
        match CoversHeight(t, RequestedEnd(q, limits, tip))
        case Err(e) => Some(e)
        case Ok(_) => None
  }

  /** The request asks for cut-through, from its own start unless it names another. */
  predicate AsksCutThrough(q: Query) {
    q.cutThrough || q.cutStart.Some?
  }

  /** The cut-through tip, the served one unless another is given, is served and covers start and heights. */
  ghost predicate CutFits(q: Query, limits: Limits, tip: nat) {
    var t := Or(q.cutTip, tip);
    Or(q.cutStart, q.start) <= t <= tip && forall h: nat | Asked(q, limits, tip, h) :: h <= t
  }

  /**
   * Which requests are accepted: those for at least one and at most the allowed number of blocks and
   * bytes, from a served height on, whose cut-through, if any, fits.
   */
  lemma {:induction false} AcceptedIff(q: Query, limits: Limits, tip: nat)
    requires limits.maxCount <= U32_MAX
    ensures Refusal(q, limits, tip).None? <==>
              && 0 < Or(q.count, limits.maxCount) <= limits.maxCount
              && 0 < Or(q.maxBytes, limits.maxBytes) <= limits.maxBytes
              && q.start <= tip
              && (AsksCutThrough(q) ==> CutFits(q, limits, tip))
  {
    if q.start <= tip && 0 < Or(q.count, limits.maxCount) <= limits.maxCount {
      forall h: nat
        ensures Asked(q, limits, tip, h) <==> q.start <= h <= RequestedEnd(q, limits, tip)
      {
        RequestedEndIff(q, limits, tip, h);
      }
      assert Asked(q, limits, tip, RequestedEnd(q, limits, tip));
    }
  }

  /** What each refusal says about the request. */
  lemma {:induction false} RefusalNames(q: Query, limits: Limits, tip: nat)
    requires limits.maxCount <= U32_MAX && Refusal(q, limits, tip).Some?
    ensures match Refusal(q, limits, tip).value
            case ZeroCount => Or(q.count, limits.maxCount) == 0
            case CountTooLarge => q.count.Some? && q.count.value > limits.maxCount
            case ZeroCap => Or(q.maxBytes, limits.maxBytes) == 0
            case CapTooLarge => q.maxBytes.Some? && q.maxBytes.value > limits.maxBytes
            case StartAboveTip => q.start > tip
            case CutStartAboveTip => q.cutStart.Some? && q.cutStart.value > tip
            case CutTipBelowStart => AsksCutThrough(q) && Or(q.cutTip, tip) < Or(q.cutStart, q.start)
            case CutTipAboveTip => AsksCutThrough(q) && q.cutTip.Some? && q.cutTip.value > tip
            case CutTipBelowEnd =>
              AsksCutThrough(q) && exists h: nat :: Asked(q, limits, tip, h) && Or(q.cutTip, tip) < h
            case _ => false
  {
    if Refusal(q, limits, tip) == Some(CutTipBelowEnd) {
      RequestedEndIff(q, limits, tip, RequestedEnd(q, limits, tip));
    }
  }

  /** An accepted cut-through response has one tip, within the archive and not below any height it covers. */
  lemma {:induction false} AcceptedCutTip(q: Query, limits: Limits, tip: nat)
    requires Refusal(q, limits, tip).None? && CutStart(q).Some? && limits.maxCount <= U32_MAX
    ensures var t := Or(q.cutTip, tip);
            && ResolveCutTip(CutStart(q), q.cutTip, tip) == Ok(Some(t))
            && Or(q.cutStart, q.start) == CutStart(q).value <= t <= tip
            && forall h: nat | Asked(q, limits, tip, h) :: h <= t
  {
    AcceptedIff(q, limits, tip);
  }

  // ---- Pages ---------------------------------------------------------------------------------------------

  /** The payloads of heights `start .. start + n`. */
  ghost predicate Payloads(archive: Archive, start: nat, messages: seq<Bytes>) {
    forall i | 0 <= i < |messages| :: PayloadAt(archive, start, messages, i)
  }

  ghost predicate PayloadAt(archive: Archive, start: nat, messages: seq<Bytes>, i: nat)
    requires i < |messages|
  {
    archive(start + i) == Ok(messages[i])
  }

  function FramedLen(messages: seq<Bytes>): nat {
    if messages == [] then HEADER_LEN
    else FramedLen(messages[..|messages| - 1]) + ItemLen(|messages[|messages| - 1]|)
  }

  /** The tracked size is the length of the frame. */
  lemma {:induction false} FramedLenIsLength(messages: seq<Bytes>)
    ensures FramedLen(messages) == |Frame(messages)|
  {
    ItemsLen(messages);
  }

  lemma {:induction false} ItemsLen(messages: seq<Bytes>)
    ensures FramedLen(messages) == HEADER_LEN + |EncodeMany(EncodeItem, messages)|
  {
    if messages != [] { ItemsLen(messages[..|messages| - 1]); }
  }

  /** A page stops before its end only because of the cap: it holds one block over it, or the next would exceed it. */
  ghost predicate StopsForCap(archive: Archive, start: nat, messages: seq<Bytes>, cap: nat) {
    || FramedLen(messages) > cap
    || match archive(start + |messages|)
       case Err(_) => false
       case Ok(next) => FramedLen(messages) + ItemLen(|next|) > cap
  }

  /** What a page must be. */
  ghost predicate ValidPage(archive: Archive, q: Query, limits: Limits, tip: nat, page: Page) {
    && Refusal(q, limits, tip).None?
    && LastAsked(q, limits, tip, page.requestedEnd)
    && var end := page.requestedEnd;
       var cap := Or(q.maxBytes, limits.maxBytes);
       && page.messages != [] && Payloads(archive, q.start, page.messages)
       && page.end == q.start + |page.messages| - 1 <= end
       && Frameable(page.messages) && page.body == Frame(page.messages) && page.framedBytes == |page.body|
       && (page.framedBytes <= cap || |page.messages| == 1)
       && page.nextStart == (if page.end < end then Some(page.end + 1) else None)
       && (page.end < end ==> StopsForCap(archive, q.start, page.messages, cap))
  }

  /** Why a height cannot be served in a frame: it cannot be read, or its payload is too long. */
  function HeightError(archive: Archive, h: nat): Option<PageError> {
    match archive(h)
    case Err(e) => Some(e)
    case Ok(payload) => if FitsWord(payload) then None else Some(PayloadTooLong)
  }

  /** Some height of an accepted request cannot be served, for this reason. */
  ghost predicate HeightFails(archive: Archive, q: Query, limits: Limits, tip: nat, e: PageError) {
    && Refusal(q, limits, tip).None?
    && exists h: nat | Asked(q, limits, tip, h) :: HeightError(archive, h) == Some(e)
  }

  /** Blocks collected so far: within the cap, unless there is only one. */
  ghost predicate Collected(archive: Archive, start: nat, cap: nat, messages: seq<Bytes>, framedBytes: nat) {
    && Payloads(archive, start, messages) && framedBytes == FramedLen(messages)
    && (framedBytes <= cap || |messages| <= 1)
  }

  /** Reads blocks until the end or the cap; the first one is always included. */
  method FillPage(archive: Archive, start: nat, requestedEnd: nat, cap: nat)
    returns (r: Result<(seq<Bytes>, nat), PageError>)
    requires start <= requestedEnd
    ensures r.Err? ==> exists h: nat | start <= h <= requestedEnd :: archive(h) == Err(r.error)
    ensures r.Ok? ==>
      var (messages, framedBytes) := r.value;
      && messages != [] && start + |messages| - 1 <= requestedEnd
      && Collected(archive, start, cap, messages, framedBytes)
      && (start + |messages| - 1 < requestedEnd ==> StopsForCap(archive, start, messages, cap))
  {
    var messages: seq<Bytes>, framedBytes: nat := [], HEADER_LEN;
    for offset := 0 to requestedEnd - start + 1
      invariant |messages| == offset && Collected(archive, start, cap, messages, framedBytes)
      invariant framedBytes <= cap || messages == []
    {
      var served := archive(start + offset);
      if served.Err? {
        return Err(served.error);
      }
      var projected := framedBytes + ItemLen(|served.value|);
      if messages != [] && projected > cap {
        return Ok((messages, framedBytes));
      }
      PayloadsGrow(archive, start, messages, served.value);
      assert (messages + [served.value])[..|messages|] == messages;
      framedBytes := projected;
      messages := messages + [served.value];
      if framedBytes > cap {
        return Ok((messages, framedBytes));
      }
    }
    r := Ok((messages, framedBytes));
  }

  method BlockRange(archive: Archive, q: Query, limits: Limits, tip: nat) returns (r: Result<Page, PageError>)
    requires limits.maxCount <= U32_MAX
    ensures r.Ok? ==> ValidPage(archive, q, limits, tip, r.value)
    ensures r.Err? ==> Refusal(q, limits, tip) == Some(r.error) || HeightFails(archive, q, limits, tip, r.error)
  {
    var requestedCount := Or(q.count, limits.maxCount);
    if requestedCount == 0 {
      return Err(ZeroCount);
    }
    if requestedCount > limits.maxCount {
      return Err(CountTooLarge);
    }
    var cap := Or(q.maxBytes, limits.maxBytes);
    if cap == 0 {
      return Err(ZeroCap);
    }
    if cap > limits.maxBytes {
      return Err(CapTooLarge);
    }
    if q.start > tip {
      return Err(StartAboveTip);
    }
    var requestedEnd := RequestedEnd(q, limits, tip);
    var cutTip := ResolveCutTip(CutStart(q), q.cutTip, tip);
    if cutTip.Err? {
      return Err(cutTip.error);
    }
    var covers := CoversHeight(cutTip.value, requestedEnd);
    if covers.Err? {
      return Err(covers.error);
    }
    var filled := FillPage(archive, q.start, requestedEnd, cap);
    if filled.Err? {
      assert HeightFails(archive, q, limits, tip, filled.error) by {
        var h: nat :| q.start <= h <= requestedEnd && archive(h) == Err(filled.error);
        RequestedEndIff(q, limits, tip, h);
        assert HeightError(archive, h) == Some(filled.error);
      }
      return Err(filled.error);
    }
    var (messages, framedBytes) := filled.value;
    var end := q.start + |messages| - 1;
    FramedLenIsLength(messages);
    var body := FrameRange(messages);
    if body.Err? {
      TooLongIn(archive, q.start, messages);
      assert HeightFails(archive, q, limits, tip, PayloadTooLong) by {
        var h: nat :| q.start <= h < q.start + |messages| && HeightError(archive, h) == Some(PayloadTooLong);
        RequestedEndIff(q, limits, tip, h);
      }
      return Err(PayloadTooLong);
    }
    RequestedEndIff(q, limits, tip, requestedEnd);
    RequestedEndIff(q, limits, tip, requestedEnd + 1);
    var nextStart := if end >= requestedEnd then None else Some(end + 1);
    r := Ok(Page(messages, body.value, framedBytes, end, requestedEnd, nextStart));
  }

  /** A page that cannot be framed holds a payload that is too long. */
  lemma {:induction false} TooLongIn(archive: Archive, start: nat, messages: seq<Bytes>)
    requires Payloads(archive, start, messages) && |messages| <= U32_MAX && !Frameable(messages)
    ensures exists h: nat | start <= h < start + |messages| :: HeightError(archive, h) == Some(PayloadTooLong)
  {
    var i :| 0 <= i < |messages| && !FitsWord(messages[i]);
    assert PayloadAt(archive, start, messages, i);
    assert HeightError(archive, start + i) == Some(PayloadTooLong);
  }

  lemma {:induction false} PayloadsGrow(archive: Archive, start: nat, messages: seq<Bytes>, next: Bytes)
    requires Payloads(archive, start, messages) && archive(start + |messages|) == Ok(next)
    ensures Payloads(archive, start, messages + [next])
  {
    var more := messages + [next];
    forall i | 0 <= i < |more|
      ensures PayloadAt(archive, start, more, i)
    {
      if i < |messages| {
        assert PayloadAt(archive, start, messages, i);
      }
    }
  }

  // ---- The client -------------------------------------------------------------------------------------------

  lemma {:induction false} PayloadsJoin(archive: Archive, start: nat, a: seq<Bytes>, b: seq<Bytes>)
    requires Payloads(archive, start, a) && Payloads(archive, start + |a|, b)
    ensures Payloads(archive, start, a + b)
  {
    var all := a + b;
    forall i | 0 <= i < |all|
      ensures PayloadAt(archive, start, all, i)
    {
      if i < |a| {
        assert PayloadAt(archive, start, a, i);
      } else {
        assert PayloadAt(archive, start + |a|, b, i - |a|);
      }
    }
  }

  /** The query a client sends for the rest of a request, its cut-through parameters spelled out. */
  function Rest(q: Query, limits: Limits, tip: nat, next: nat): Query
    requires Refusal(q, limits, tip).None? && q.start <= next <= RequestedEnd(q, limits, tip)
  {
    Query(next, Some(RequestedEnd(q, limits, tip) - next + 1), q.cutThrough, CutStart(q),
          if CutStart(q).Some? then Some(Or(q.cutTip, tip)) else q.cutTip, q.maxBytes)
  }

  /**
   * Once a request is accepted, the rest of it is accepted at every later tip, ends at the same
   * height, and keeps the cut-through start and tip.
   */
  lemma {:induction false} RestIsAccepted(q: Query, limits: Limits, tip: nat, next: nat, later: nat)
    requires Refusal(q, limits, tip).None? && q.start <= next <= RequestedEnd(q, limits, tip) && tip <= later
    requires limits.maxCount <= U32_MAX
    ensures var rest := Rest(q, limits, tip, next);
            && Refusal(rest, limits, later).None? && rest.start == next && rest.maxBytes == q.maxBytes
            && (forall h: nat | h >= next :: Asked(rest, limits, later, h) <==> Asked(q, limits, tip, h))
            && CutStart(rest) == CutStart(q)
            && ResolveCutTip(CutStart(rest), rest.cutTip, later) == ResolveCutTip(CutStart(q), q.cutTip, tip)
  {
    var rest := Rest(q, limits, tip, next);
    forall h: nat | h >= next
      ensures Asked(rest, limits, later, h) <==> Asked(q, limits, tip, h)
    {
      RequestedEndIff(q, limits, tip, h);
    }
  }

  /** Every height of the request can be read, and its payload fits a frame. */
  ghost predicate Readable(archive: Archive, q: Query, limits: Limits, tip: nat)
  {
    forall h: nat | Asked(q, limits, tip, h) :: HeightError(archive, h).None?
  }

  /** As many payloads as the request asks for heights, when all of them are served. */
  ghost predicate Complete(q: Query, limits: Limits, tip: nat, messages: seq<Bytes>) {
    var (count, available) := (Or(q.count, limits.maxCount), tip - q.start + 1);
    |messages| == if available < count then available else count
  }

  lemma {:induction false} PayloadsReadable(archive: Archive, q: Query, limits: Limits, tip: nat, messages: seq<Bytes>)
    requires Complete(q, limits, tip, messages) && Payloads(archive, q.start, messages) && AllValid(FitsWord, messages)
    ensures Readable(archive, q, limits, tip)
  {
    forall h: nat | Asked(q, limits, tip, h)
      ensures HeightError(archive, h).None?
    {
      assert PayloadAt(archive, q.start, messages, h - q.start);
    }
  }

  /**
   * Follows an accepted request page by page, while the served tip may rise from one page to the
   * next. The client gets every height of the request once and in order, if and only if each can be
   * read and its payload fits a frame.
   */
  method FollowPages(archive: Archive, q: Query, limits: Limits, tip: nat) returns (r: Result<seq<Bytes>, PageError>)
    requires Refusal(q, limits, tip).None? && limits.maxCount <= U32_MAX
    ensures r.Ok? <==> Readable(archive, q, limits, tip)
    ensures r.Ok? ==> Complete(q, limits, tip, r.value) && Payloads(archive, q.start, r.value)
    ensures r.Err? ==> HeightFails(archive, q, limits, tip, r.error)
  {
    var end := RequestedEnd(q, limits, tip);
    var collected, next := [], Some(q.start);
    while next.Some?
      invariant Payloads(archive, q.start, collected) && AllValid(FitsWord, collected)
      invariant q.start + |collected| <= end + 1
      invariant next == if q.start + |collected| <= end then Some(q.start + |collected|) else None
      decreases end + 1 - (q.start + |collected|)
    {
      var later: nat :| later >= tip;
      RestIsAccepted(q, limits, tip, next.value, later);
      var page := BlockRange(archive, Rest(q, limits, tip, next.value), limits, later);
      if page.Err? {
        return Err(page.error);
      }
      PayloadsJoin(archive, q.start, collected, page.value.messages);
      collected := collected + page.value.messages;
      next := page.value.nextStart;
    }
    PayloadsReadable(archive, q, limits, tip, collected);
    r := Ok(collected);
  }
}
