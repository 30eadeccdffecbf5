/** The data-gathering half of `handle_get_sales_analytics`: date-range
    validation, store resolution, and the transaction fetch that splits a long
    range into chunks of at most 15 calendar days. Dates are day numbers. */
module SalesAnalytics {
  import opened Wrappers
  import opened Auth
  import opened ApiGateway
  import opened Stores
  import opened Numbers

  /** Longest span accepted, in days (to - from). */
  const MaxSpan: int := 90
  /** Spans up to this many days are fetched with one call. */
  const SingleCallSpan: int := 14
  /** `chunk_size`: a chunk [c, c + 14] spans 14 days, so holds 15 dates. */
  const ChunkDays: int := 14
  /** Default start: seven days before today. */
  const DefaultLookback: int := 7

  datatype DateRange = DateRange(fromDay: int, toDay: int)

  /** Missing dates default to the last week up to today. */
  function DateDefaults(fromDay: Option<int>, toDay: Option<int>, today: int): DateRange {
    DateRange(fromDay.GetOr(today - DefaultLookback), toDay.GetOr(today))
  }

  datatype RangeCheck = TooLarge | Inverted | InRange(span: nat)

  /** The checks at main.py:519-523, the span limit first. */
  function CheckRange(fromDay: int, toDay: int): (r: RangeCheck)
    ensures r.TooLarge? <==> toDay - fromDay > MaxSpan
    ensures r.Inverted? <==> toDay - fromDay < 0
    ensures r.InRange? <==> 0 <= toDay - fromDay <= MaxSpan
    ensures r.InRange? ==> r.span == toDay - fromDay
  {
    var span := toDay - fromDay;
    if span > MaxSpan then TooLarge
    else if span < 0 then Inverted
    else InRange(span)
  }

  /** A closed interval of day numbers. */
  datatype Chunk = Chunk(start: int, end: int)

  /** The chunks the `while current_date <= to_dt` loop visits. */
  function Chunks(fromDay: int, toDay: int): seq<Chunk>
    decreases toDay - fromDay
  {
    if fromDay > toDay then []
    else
      var end := Min(fromDay + ChunkDays, toDay);
      [Chunk(fromDay, end)] + Chunks(end + 1, toDay)
  }

  /** The chunks run from `fromDay` to `toDay` without gaps, and each spans
      14 days unless the range ends first. */
  lemma {:induction false} ChunksShape(fromDay: int, toDay: int)
    decreases toDay - fromDay
    ensures var cs := Chunks(fromDay, toDay);
      && (fromDay > toDay <==> cs == [])
      && (fromDay <= toDay ==> cs[0].start == fromDay && cs[|cs| - 1].end == toDay)
      && (forall i :: 0 <= i < |cs| ==>
            fromDay <= cs[i].start <= cs[i].end <= toDay && cs[i].end == Min(cs[i].start + ChunkDays, toDay))
      && (forall i, j :: 0 <= i && j == i + 1 && j < |cs| ==> cs[j].start == cs[i].end + 1)
  {
    if fromDay <= toDay {
      var end := Min(fromDay + ChunkDays, toDay);
      ChunksShape(end + 1, toDay);
      var rest := Chunks(end + 1, toDay);
      var cs := Chunks(fromDay, toDay);
      assert cs == [Chunk(fromDay, end)] + rest;
      assert forall i :: 0 < i < |cs| ==> cs[i] == rest[i - 1];
    }
  }

  /** Chunks come in order and do not overlap. */
  lemma {:induction false} ChunksDisjoint(fromDay: int, toDay: int, i: nat, j: nat)
    requires i < j < |Chunks(fromDay, toDay)|
    ensures Chunks(fromDay, toDay)[i].end < Chunks(fromDay, toDay)[j].start
    decreases j - i
  {
    ChunksShape(fromDay, toDay);
    if j > i + 1 {
      ChunksDisjoint(fromDay, toDay, i, j - 1);
    }
  }

  /** Every day of the range lies in a chunk. */
  lemma {:induction false} ChunkContaining(fromDay: int, toDay: int, day: int) returns (i: nat)
    requires fromDay <= day <= toDay
    ensures i < |Chunks(fromDay, toDay)|
    ensures Chunks(fromDay, toDay)[i].start <= day <= Chunks(fromDay, toDay)[i].end
    decreases toDay - fromDay
  {
    var cs := Chunks(fromDay, toDay);
    var end := Min(fromDay + ChunkDays, toDay);
    assert cs == [Chunk(fromDay, end)] + Chunks(end + 1, toDay);
    if day <= end {
      i := 0;
    } else {
      var k := ChunkContaining(end + 1, toDay, day);
      i := k + 1;
    }
  }

  /** The number of chunks, and so of calls, for a span of `span` days. */
  function CallCount(span: nat): nat {
    span / (ChunkDays + 1) + 1
  }

  lemma {:induction false} ChunkCount(fromDay: int, toDay: int)
    requires fromDay <= toDay
    ensures |Chunks(fromDay, toDay)| == CallCount(toDay - fromDay)
    decreases toDay - fromDay
  {
    var end := Min(fromDay + ChunkDays, toDay);
    if end < toDay {
      ChunkCount(end + 1, toDay);
      assert toDay - fromDay == (toDay - (end + 1)) + (ChunkDays + 1);
    }
  }

  /** The "retrieved in N API calls" figure of main.py:591, as written. */
  function ReportedCallCount(span: int): int {
    span / 14 + (if span % 14 > 0 then 1 else 0)
  }

  /** A 29-day span is fetched in 2 calls ([0, 14] and [15, 29]) but reported as 3. */
  lemma ReportedCallCountDisagrees()
    ensures |Chunks(0, 29)| == 2 && CallCount(29) == 2
    ensures ReportedCallCount(29) == 3
  {
    ChunkCount(0, 29);
  }

  function TransactionsRequest(fromDay: int, toDay: int, storeId: string, includeOnline: bool): Request {
    Request("/transactions", "GET", Range(fromDay, toDay, storeId, includeOnline))
  }

  /** One `/transactions` request per chunk, carrying the chunk's bounds. */
  function ChunkRequests(cs: seq<Chunk>, storeId: string, includeOnline: bool): (reqs: seq<Request>)
    ensures |reqs| == |cs|
    ensures forall i :: 0 <= i < |cs| ==> reqs[i] == TransactionsRequest(cs[i].start, cs[i].end, storeId, includeOnline)
    decreases |cs|
  {
    if cs == [] then []
    else
      var c := cs[|cs| - 1];
      ChunkRequests(cs[..|cs| - 1], storeId, includeOnline) + [TransactionsRequest(c.start, c.end, storeId, includeOnline)]
  }

  /** What one chunk adds to `all_transactions`: a failed or empty chunk adds nothing. */
  function Contribution<T>(o: Result<Option<seq<T>>, ApiError>): seq<T> {
    match o
    case Success(Some(records)) => records
    case _ => []
  }

  /** The chunks' records, concatenated in chunk order. */
  function Gather<T>(outcomes: seq<Result<Option<seq<T>>, ApiError>>): seq<T>
    decreases |outcomes|
  {
    if outcomes == [] then []
    else Gather(outcomes[..|outcomes| - 1]) + Contribution(outcomes[|outcomes| - 1])
  }

  lemma {:induction false} GatherAppend<T>(a: seq<Result<Option<seq<T>>, ApiError>>, b: seq<Result<Option<seq<T>>, ApiError>>)
    ensures Gather(a + b) == Gather(a) + Gather(b)
    decreases |b|
  {
    if b == [] {
      assert a + b == a;
    } else {
      var n := |b| - 1;
      var c := Contribution(b[n]);
      assert (a + b)[..|a + b| - 1] == a + b[..n] && (a + b)[|a + b| - 1] == b[n];
      assert Gather(a + b) == Gather(a + b[..n]) + c;
      GatherAppend(a, b[..n]);
      assert Gather(b) == Gather(b[..n]) + c;
      AppendAssoc(Gather(a), Gather(b[..n]), c);
    }
  }

  lemma GatherSnoc<T>(outcomes: seq<Result<Option<seq<T>>, ApiError>>, o: Result<Option<seq<T>>, ApiError>)
    ensures Gather(outcomes + [o]) == Gather(outcomes) + Contribution(o)
  {
    assert (outcomes + [o])[..|outcomes|] == outcomes;
  }

  /** A failing chunk is skipped: the chunks around it keep their records and their order. */
  lemma FailedChunkSkipped<T>(before: seq<Result<Option<seq<T>>, ApiError>>, e: ApiError, after: seq<Result<Option<seq<T>>, ApiError>>)
    ensures Gather(before + [Failure(e)] + after) == Gather(before) + Gather(after)
  {
    GatherAppend(before + [Failure(e)], after);
    GatherSnoc(before, Failure(e));
  }

  /** Each chunk's records appear whole, at the offset given by the chunks before it. */
  lemma ChunkRecordsInPlace<T>(outcomes: seq<Result<Option<seq<T>>, ApiError>>, k: nat)
    requires k < |outcomes|
    ensures var g := Gather(outcomes); var off := |Gather(outcomes[..k])|;
      off + |Contribution(outcomes[k])| <= |g| && g[off..off + |Contribution(outcomes[k])|] == Contribution(outcomes[k])
  {
    assert outcomes == outcomes[..k] + [outcomes[k]] + outcomes[k + 1..];
    GatherAppend(outcomes[..k] + [outcomes[k]], outcomes[k + 1..]);
    GatherSnoc(outcomes[..k], outcomes[k]);
  }

  lemma AppendAssoc<A>(a: seq<A>, b: seq<A>, c: seq<A>)
    ensures a + b + c == a + (b + c)
  {
  }

  lemma ChunkRequestsSnoc(done: seq<Chunk>, c: Chunk, storeId: string, includeOnline: bool)
    ensures ChunkRequests(done + [c], storeId, includeOnline)
         == ChunkRequests(done, storeId, includeOnline) + [TransactionsRequest(c.start, c.end, storeId, includeOnline)]
  {
    assert (done + [c])[..|done|] == done;
  }

  /** The calls made for the chunks done so far. */
  ghost function ChunkTrace<T>(creds: Credentials, done: seq<Chunk>, storeId: string, includeOnline: bool,
                               server: Server<Option<seq<T>>>, last: int, now: int): Trace<Option<seq<T>>>
  {
    Run(creds, ChunkRequests(done, storeId, includeOnline), server, last, now)
  }

  /** One more chunk is one more call, whose records go after the others. */
  lemma ChunkTraceSnoc<T>(creds: Credentials, done: seq<Chunk>, c: Chunk, storeId: string, includeOnline: bool,
                          server: Server<Option<seq<T>>>, last: int, now: int)
    ensures var p := ChunkTrace(creds, done, storeId, includeOnline, server, last, now);
      var x := Step(creds, TransactionsRequest(c.start, c.end, storeId, includeOnline), server, p.last, p.now);
      var q := ChunkTrace(creds, done + [c], storeId, includeOnline, server, last, now);
      && q == Trace(p.results + [x.result], p.sent + x.sent, x.last, x.now)
      && Gather(q.results) == Gather(p.results) + Contribution(x.result)
  {
    var p := ChunkTrace(creds, done, storeId, includeOnline, server, last, now);
    var x := Step(creds, TransactionsRequest(c.start, c.end, storeId, includeOnline), server, p.last, p.now);
    ChunkRequestsSnoc(done, c, storeId, includeOnline);
    RunSnoc(creds, ChunkRequests(done, storeId, includeOnline), TransactionsRequest(c.start, c.end, storeId, includeOnline), server, last, now);
    GatherSnoc(p.results, x.result);
  }

  /** The chunks of the range are those done so far followed by those from `current` on. */
  ghost predicate Pending(fromDay: int, toDay: int, done: seq<Chunk>, current: int) {
    Chunks(fromDay, toDay) == done + Chunks(current, toDay)
  }

  lemma PendingStart(fromDay: int, toDay: int)
    ensures Pending(fromDay, toDay, [], fromDay)
  {
    assert [] + Chunks(fromDay, toDay) == Chunks(fromDay, toDay);
  }

  /** One turn of the chunk loop moves the next chunk from the remaining part to the done part. */
  lemma ChunksAdvance(fromDay: int, toDay: int, done: seq<Chunk>, current: int)
    requires Pending(fromDay, toDay, done, current)
    requires current <= toDay
    ensures Pending(fromDay, toDay, done + [Chunk(current, Min(current + ChunkDays, toDay))], Min(current + ChunkDays, toDay) + 1)
  {
    var end := Min(current + ChunkDays, toDay);
    var rest := Chunks(end + 1, toDay);
    assert Chunks(current, toDay) == [Chunk(current, end)] + rest;
    AppendAssoc(done, [Chunk(current, end)], rest);
  }

  lemma ChunksFinished(fromDay: int, toDay: int, done: seq<Chunk>, current: int)
    requires Pending(fromDay, toDay, done, current)
    requires current > toDay
    ensures Chunks(fromDay, toDay) == done
  {
    assert done + [] == done;
  }

  /** With usable credentials, the chunked fetch sends one request per chunk
      through the limiter, in chunk order, whatever each chunk answered. */
  lemma ChunkedFetchIssuesEveryChunk<T>(creds: Credentials, fromDay: int, toDay: int, storeId: string, includeOnline: bool,
                                        server: Server<Option<seq<T>>>, last: int, now: int)
    requires AuthHeaders(creds).Basic?
    ensures var reqs := ChunkRequests(Chunks(fromDay, toDay), storeId, includeOnline);
      Issued(Run(creds, reqs, server, last, now).sent) == reqs
  {
    var reqs := ChunkRequests(Chunks(fromDay, toDay), storeId, includeOnline);
    assert forall i :: 0 <= i < |reqs| ==> SupportedVerb(reqs[i].verb);
    RunIssuesEveryRequest(creds, reqs, server, last, now);
  }

  /** The transaction fetch of main.py:533-580 as a value: one call for a
      short span, where a null or empty reply reads as no records, else the
      chunk run. */
  function Fetch<T>(creds: Credentials, fromDay: int, toDay: int, storeId: string, includeOnline: bool,
                    server: Server<Option<seq<T>>>, last: int, now: int): (x: Exchanged<seq<T>>)
    // A failed chunk is skipped, so a chunked fetch never fails as a whole.
    ensures toDay - fromDay > SingleCallSpan ==> x.result.Success?
  {
    if toDay - fromDay <= SingleCallSpan then
      var s := Step(creds, TransactionsRequest(fromDay, toDay, storeId, includeOnline), server, last, now);
      Exchanged(match s.result case Success(v) => Success(v.GetOr([])) case Failure(e) => Failure(e), s.sent, s.last, s.now)
    else
      var t := Run(creds, ChunkRequests(Chunks(fromDay, toDay), storeId, includeOnline), server, last, now);
      Exchanged(Success(Gather(t.results)), t.sent, t.last, t.now)
  }

  /** With usable credentials the fetch issues the single request of a short
      span, or every chunk's request in order. */
  lemma {:induction false} FetchIssues<T>(creds: Credentials, fromDay: int, toDay: int, storeId: string, includeOnline: bool,
                                          server: Server<Option<seq<T>>>, last: int, now: int)
    requires AuthHeaders(creds).Basic?
    ensures Issued(Fetch(creds, fromDay, toDay, storeId, includeOnline, server, last, now).sent) ==
      if toDay - fromDay <= SingleCallSpan then [TransactionsRequest(fromDay, toDay, storeId, includeOnline)]
      else ChunkRequests(Chunks(fromDay, toDay), storeId, includeOnline)
  {
    if toDay - fromDay <= SingleCallSpan {
      IssuedStep(creds, TransactionsRequest(fromDay, toDay, storeId, includeOnline), server, last, now);
    } else {
      ChunkedFetchIssuesEveryChunk(creds, fromDay, toDay, storeId, includeOnline, server, last, now);
    }
  }

  /** The transaction fetch of main.py:537-580 for a range already validated:
      one call for a short span, one call per chunk otherwise. */
  method FetchTransactions<T>(gateway: Gateway, fromDay: int, toDay: int, storeId: string, includeOnline: bool,
                              server: Server<Option<seq<T>>>) returns (r: Result<seq<T>, ApiError>)
    requires gateway.Valid()
    modifies gateway, gateway.limiter, gateway.clock
    ensures gateway.Valid()
    ensures var x := Fetch(gateway.creds, fromDay, toDay, storeId, includeOnline, server,
                           old(gateway.limiter.lastCall), old(gateway.clock.now));
      && r == x.result && gateway.sent == old(gateway.sent) + x.sent
      && gateway.limiter.lastCall == x.last && gateway.clock.now == x.now
  {
    if toDay - fromDay <= SingleCallSpan {
      var single := gateway.Call(TransactionsRequest(fromDay, toDay, storeId, includeOnline), server);
      match single {
        case Success(v) => return Success(v.GetOr([]));
        case Failure(e) => return Failure(e);
      }
    }
    var all := FetchChunked(gateway, fromDay, toDay, storeId, includeOnline, server);
    return Success(all);
  }

  /** The `while current_date <= to_dt` loop: a failed chunk is skipped. */
  method FetchChunked<T>(gateway: Gateway, fromDay: int, toDay: int, storeId: string, includeOnline: bool,
                         server: Server<Option<seq<T>>>) returns (all: seq<T>)
    requires gateway.Valid()
    modifies gateway, gateway.limiter, gateway.clock
    ensures gateway.Valid()
    ensures var t := Run(gateway.creds, ChunkRequests(Chunks(fromDay, toDay), storeId, includeOnline), server,
                         old(gateway.limiter.lastCall), old(gateway.clock.now));
      && all == Gather(t.results)
      && gateway.sent == old(gateway.sent) + t.sent
      && gateway.limiter.lastCall == t.last && gateway.clock.now == t.now
  {
    ghost var sent0, last0, now0 := gateway.sent, gateway.limiter.lastCall, gateway.clock.now;
    ghost var done: seq<Chunk> := [];
    all := [];
    var current := fromDay;
    PendingStart(fromDay, toDay);
    while current <= toDay
      invariant Pending(fromDay, toDay, done, current)
      invariant gateway.Valid()
      invariant var t := ChunkTrace(gateway.creds, done, storeId, includeOnline, server, last0, now0);
        && all == Gather(t.results) && gateway.sent == sent0 + t.sent
        && gateway.limiter.lastCall == t.last && gateway.clock.now == t.now
      decreases toDay - current
    {
      var chunkEnd := Min(current + ChunkDays, toDay);
      ghost var p := ChunkTrace(gateway.creds, done, storeId, includeOnline, server, last0, now0);
      ghost var x := Step(gateway.creds, TransactionsRequest(current, chunkEnd, storeId, includeOnline), server, p.last, p.now);
      var records := FetchChunk(gateway, Chunk(current, chunkEnd), storeId, includeOnline, server);
      all := all + records;
      ChunkTraceSnoc(gateway.creds, done, Chunk(current, chunkEnd), storeId, includeOnline, server, last0, now0);
      AppendAssoc(sent0, p.sent, x.sent);
      ChunksAdvance(fromDay, toDay, done, current);
      done := done + [Chunk(current, chunkEnd)];
      current := chunkEnd + 1;
    }
    ChunksFinished(fromDay, toDay, done, current);
  }

  /** One turn of the chunk loop: the chunk's request, and the records its
      answer adds to `all_transactions`. */
  method FetchChunk<T>(gateway: Gateway, c: Chunk, storeId: string, includeOnline: bool,
                       server: Server<Option<seq<T>>>) returns (records: seq<T>)
    requires gateway.Valid()
    modifies gateway, gateway.limiter, gateway.clock
    ensures gateway.Valid()
    ensures var x := Step(gateway.creds, TransactionsRequest(c.start, c.end, storeId, includeOnline), server,
                          old(gateway.limiter.lastCall), old(gateway.clock.now));
      && records == Contribution(x.result)
      && gateway.sent == old(gateway.sent) + x.sent
      && gateway.limiter.lastCall == x.last && gateway.clock.now == x.now
  {
    var chunk := gateway.Call(TransactionsRequest(c.start, c.end, storeId, includeOnline), server);
    records := Contribution(chunk);
  }

  datatype Sales<+T> =
    | RangeTooLarge
    | RangeInverted
    | NoStore
    | Refused(error: ApiError)
    | Transactions(records: seq<T>)

  /** `handle_get_sales_analytics` up to the records it reports on. */
  method SalesTransactions<T>(resolver: StoreResolver, fromDay: Option<int>, toDay: Option<int>, today: int,
                              includeOnline: Option<bool>, stores: Server<seq<Store>>,
                              server: Server<Option<seq<T>>>) returns (r: Sales<T>)
    requires resolver.Valid()
    modifies resolver, resolver.gateway, resolver.gateway.limiter, resolver.gateway.clock
    ensures resolver.Valid()
    // A bad range is refused before the store is resolved or anything is sent.
    ensures var d := DateDefaults(fromDay, toDay, today);
      !CheckRange(d.fromDay, d.toDay).InRange? ==>
        && r == (if CheckRange(d.fromDay, d.toDay).TooLarge? then RangeTooLarge else RangeInverted)
        && resolver.cached == old(resolver.cached)
        && resolver.gateway.sent == old(resolver.gateway.sent)
        && resolver.gateway.limiter.lastCall == old(resolver.gateway.limiter.lastCall)
        && resolver.gateway.clock.now == old(resolver.gateway.clock.now)
    ensures r.Transactions? || r.Refused? || r.NoStore? ==>
      CheckRange(DateDefaults(fromDay, toDay, today).fromDay, DateDefaults(fromDay, toDay, today).toDay).InRange?
    // No transactions request goes out without a usable store id.
    ensures r.NoStore? ==>
      forall i :: |old(resolver.gateway.sent)| <= i < |resolver.gateway.sent| ==>
        resolver.gateway.sent[i].request == StoresRequest
    // An accepted range is handled as a whole by `HandleRange`; online orders are
    // included unless the caller says otherwise.
    ensures var d := DateDefaults(fromDay, toDay, today);
      CheckRange(d.fromDay, d.toDay).InRange? ==>
        var h := HandleRange(resolver.gateway.creds, old(resolver.cached), d.fromDay, d.toDay, includeOnline.GetOr(true),
                         stores, server, old(resolver.gateway.limiter.lastCall), old(resolver.gateway.clock.now));
        && r == h.outcome && resolver.cached == h.cache
        && resolver.gateway.sent == old(resolver.gateway.sent) + h.sent
        && resolver.gateway.limiter.lastCall == h.last && resolver.gateway.clock.now == h.now
  {
    var range := DateDefaults(fromDay, toDay, today);
    var check := CheckRange(range.fromDay, range.toDay);
    if check.TooLarge? {
      return RangeTooLarge;
    }
    if check.Inverted? {
      return RangeInverted;
    }
    r := SalesInRange(resolver, range.fromDay, range.toDay, includeOnline.GetOr(true), stores, server);
  }

  /** The whole effect of the handler on an accepted range. */
  datatype Handled<+T> = Handled(outcome: Sales<T>, cache: Option<string>, sent: seq<Sent>, last: int, now: int)

  /** main.py:525-580 as a value: resolve the store, answer "no store" when no
      usable id comes back, else fetch the transactions of that store. */
  function HandleRange<T>(creds: Credentials, cache: Option<string>, fromDay: int, toDay: int, includeOnline: bool,
                      stores: Server<seq<Store>>, server: Server<Option<seq<T>>>, last: int, now: int): (h: Handled<T>)
    ensures h.outcome.Transactions? || h.outcome.Refused? || h.outcome.NoStore?
  {
    var y := StoreLookup(creds, cache, stores, last, now);
    if !Truthy(y.id) then Handled(NoStore, y.cache, y.sent, y.last, y.now)
    else
      var f := Fetch(creds, fromDay, toDay, y.id.value, includeOnline, server, y.last, y.now);
      Handled(match f.result case Success(records) => Transactions(records) case Failure(e) => Refused(e),
              y.cache, y.sent + f.sent, f.last, f.now)
  }

  /** The handler says no store was found exactly when resolution gives no
      usable id, and it has then asked for nothing but `/stores`. */
  lemma NoStoreOnlyAfterLookup<T>(creds: Credentials, cache: Option<string>, fromDay: int, toDay: int, includeOnline: bool,
                                  stores: Server<seq<Store>>, server: Server<Option<seq<T>>>, last: int, now: int)
    ensures var h := HandleRange(creds, cache, fromDay, toDay, includeOnline, stores, server, last, now);
      && (h.outcome.NoStore? <==> !Truthy(StoreLookup(creds, cache, stores, last, now).id))
      && (h.outcome.NoStore? ==> forall i :: 0 <= i < |h.sent| ==> h.sent[i].request == StoresRequest)
  {
  }

  /** With usable credentials and a usable store, the handler asks for
      `/stores` unless the cache answered, then for the transactions of that
      store: the one request of a short span, or every chunk in order. A long
      span is never refused. */
  lemma {:induction false} HandlerIssuesLookupThenFetch<T>(creds: Credentials, cache: Option<string>, fromDay: int, toDay: int,
                                                           includeOnline: bool, stores: Server<seq<Store>>,
                                                           server: Server<Option<seq<T>>>, last: int, now: int)
    requires AuthHeaders(creds).Basic?
    requires Truthy(StoreLookup(creds, cache, stores, last, now).id)
    ensures var h := HandleRange(creds, cache, fromDay, toDay, includeOnline, stores, server, last, now);
      var id := StoreLookup(creds, cache, stores, last, now).id.value;
      && Issued(h.sent) == (if Truthy(cache) then [] else [StoresRequest]) +
           (if toDay - fromDay <= SingleCallSpan then [TransactionsRequest(fromDay, toDay, id, includeOnline)]
            else ChunkRequests(Chunks(fromDay, toDay), id, includeOnline))
      && (toDay - fromDay > SingleCallSpan ==> h.outcome.Transactions?)
  {
    var y := StoreLookup(creds, cache, stores, last, now);
    var f := Fetch(creds, fromDay, toDay, y.id.value, includeOnline, server, y.last, y.now);
    if !Truthy(cache) {
      IssuedStep(creds, StoresRequest, stores, last, now);
    }
    FetchIssues(creds, fromDay, toDay, y.id.value, includeOnline, server, y.last, y.now);
    IssuedAppend(y.sent, f.sent);
  }

  /** The part of `handle_get_sales_analytics` after the range check: resolve
      the store, then fetch its transactions. */
  method SalesInRange<T>(resolver: StoreResolver, fromDay: int, toDay: int, includeOnline: bool,
                         stores: Server<seq<Store>>, server: Server<Option<seq<T>>>) returns (r: Sales<T>)
    requires resolver.Valid()
    modifies resolver, resolver.gateway, resolver.gateway.limiter, resolver.gateway.clock
    ensures resolver.Valid()
    ensures r.Transactions? || r.Refused? || r.NoStore?
    // No transactions request goes out without a usable store id.
    ensures r.NoStore? ==>
      forall i :: |old(resolver.gateway.sent)| <= i < |resolver.gateway.sent| ==>
        resolver.gateway.sent[i].request == StoresRequest
    ensures var h := HandleRange(resolver.gateway.creds, old(resolver.cached), fromDay, toDay, includeOnline, stores, server,
                             old(resolver.gateway.limiter.lastCall), old(resolver.gateway.clock.now));
      && r == h.outcome && resolver.cached == h.cache
      && resolver.gateway.sent == old(resolver.gateway.sent) + h.sent
      && resolver.gateway.limiter.lastCall == h.last && resolver.gateway.clock.now == h.now
  {
    ghost var gateway := resolver.gateway;
    ghost var sent0 := gateway.sent;
    ghost var y := StoreLookup(gateway.creds, resolver.cached, stores, gateway.limiter.lastCall, gateway.clock.now);
    ghost var h := HandleRange(gateway.creds, resolver.cached, fromDay, toDay, includeOnline, stores, server,
                               gateway.limiter.lastCall, gateway.clock.now);
    var storeId := resolver.Resolve(stores);
    assert storeId == y.id && resolver.cached == y.cache && gateway.sent == sent0 + y.sent;
    if !Truthy(storeId) {
      assert h == Handled(NoStore, y.cache, y.sent, y.last, y.now);
      return NoStore;
    }
    ghost var f := Fetch(gateway.creds, fromDay, toDay, storeId.value, includeOnline, server, y.last, y.now);
    assert h.sent == y.sent + f.sent && h.last == f.last && h.now == f.now && h.cache == y.cache;
    var fetched := FetchTransactions(resolver.gateway, fromDay, toDay, storeId.value, includeOnline, server);
    assert fetched == f.result;
    AppendAssoc(sent0, y.sent, f.sent);
    match fetched {
      case Success(records) => return Transactions(records);
      case Failure(e) => return Refused(e);
    }
  }
}
