# StoreHub back-office MCP server: the access layer, in Dafny

The StoreHub back-office server answers reporting tools (inventory, sales,
stores, ...) by calling the StoreHub REST API. Underneath the report
rendering, every call goes through one small access layer in
`storehub-mcp-server/main.py`. This project models that layer and proves
what it promises:

- **Credentials and the auth header** (`Auth`, `Base64`). `api_configured`
  holds when both secrets are non-empty. `get_auth_headers` then builds HTTP
  Basic authentication as section 2 of RFC 7617 describes: `"Basic "`
  followed by the base64 of `account:key`, with base64 as in section 4 of
  RFC 4648. It adds fixed JSON `Content-Type` and `Accept` headers. The
  encoder is written out, and decoding is proved to invert it.
- **Rate limiter** (`RateLimit`). `rate_limited_delay` keeps one global
  "last call" stamp. Before every request it sleeps for whatever is left of
  the 350 ms delay, then stamps the time. The clock is a `Clock` object
  counting milliseconds, and sleeping advances it.
- **Gateway** (`ApiGateway`). `make_api_request` works in this order:
  1. It fails when the credentials are missing.
  2. It passes through the limiter.
  3. It makes one attempt.
  4. After a 409 it waits 2 s and retries once, without the limiter again.
  5. A failed retry raises the rate-limit message, quoting at most 200
     characters of the first reply's body.

  Any other error status raises `StoreHub API error: <status>`. The HTTP
  client is a *server function*: it maps a request, its headers and the
  attempt time to a reply `Ok(json)`, `Status(code, body)` or
  `Failed(reason)`. `Gateway.Call` is proved equal to the pure `Step`.
  `Run` chains calls, and the proofs show two things about it:
  - With usable credentials and supported verbs, every request passes
    through the limiter exactly once, in order. Without credentials nothing
    reaches the limiter; with non-ASCII credentials or an unknown verb the
    limiter stamps but nothing is sent.
  - First attempts are spaced by at least 350 ms.
- **Product-name cache** (`ProductNames`). `get_product_name_cached` keys
  names by `"product_<id>"` and serves entries younger than 300 s. When the
  cache holds more than 100 entries, it first sweeps out entries older than
  300 s (`cleanup_cache`). A cached name carries the time the lookup started.
- **Store resolver** (`Stores`). `get_actual_store_id` caches a store id and
  chooses it as follows:
  - A single store is taken as it is.
  - With several, it takes the first store whose id equals the account id,
    or whose lowercased name equals or contains the lowercased account id.
  - If none matches, it takes the first store.
- **Sales-analytics fetch** (`SalesAnalytics`). The fetch in
  `handle_get_sales_analytics` runs in this order:
  1. It refuses date ranges longer than 90 days, or inverted ranges, before
     anything else happens.
  2. It resolves the store.
  3. It fetches transactions. A span of up to 14 days takes one call.
     Longer spans take one call per chunk `[c, min(c + 14, to)]`, and a
     failed chunk is skipped.

  Dates are day numbers.
- **Inventory classification** (`Inventory`). `handle_get_inventory`
  classifies each item as out of stock, low stock or in stock. It also
  computes the reorder recommendation and the summary counts. This code
  only runs if `STOREHUB_STORE_ID` is defined. In the file it is never
  defined (main.py:350), so at run time the handler always takes its error
  path (main.py:418).

Each stateful piece of the source is a class with `modifies` clauses:
- the clock;
- the limiter's stamp;
- the gateway's log of sent requests;
- the product cache's map;
- the resolver's cached id.

Each of its methods states its new state as a pure function of the old
one. Lemmas about those functions state what the source promises.

Files: `wrappers.dfy`, `base64.dfy`, `auth.dfy`, `rate_limit.dfy`,
`api_gateway.dfy`, `product_names.dfy`, `stores.dfy`,
`sales_analytics.dfy`, `inventory.dfy`.

## Model

| member | source | states |
|---|---|---|
| Base64.Digit | storehub-mcp-server/main.py:70 | each sextet maps to a character of the base64 alphabet, never the pad `=` |
| Base64.Value | storehub-mcp-server/main.py:70 | each alphabet character is the digit of the sextet it is read as |
| Base64.ValueOfDigit | storehub-mcp-server/main.py:70 | an alphabet character read back gives the sextet that was encoded |
| Base64.EncodeShape | storehub-mcp-server/main.py:70 | the output holds 4 characters per started group of 3 bytes, each an alphabet character or `=` |
| Base64.BlockRoundTrip | storehub-mcp-server/main.py:70 | the four characters of a full 3-byte group decode back to those 3 bytes |
| Base64.DecodeOne | storehub-mcp-server/main.py:70 | a trailing single byte, encoded with `==` padding, decodes back |
| Base64.DecodeTwo | storehub-mcp-server/main.py:70 | two trailing bytes, encoded with `=` padding, decode back |
| Base64.DecodeBlock | storehub-mcp-server/main.py:70 | decoding a full group followed by more text gives the group's bytes followed by the decoding of the rest |
| Base64.Encode | storehub-mcp-server/main.py:70 | `b64encode` as a definition: each group of 3 bytes becomes 4 alphabet characters, and a trailing 1 or 2 bytes are padded with `==` or `=`. Its length and alphabet are stated by `EncodeShape`, and `DecodeEncode` proves it invertible |
| Base64.DecodeEncode | storehub-mcp-server/main.py:70 | decoding inverts encoding for every byte string |
| Auth.Configured | storehub-mcp-server/main.py:59 | `api_configured` as a definition: both secrets are non-empty. `AuthHeaders` states that it decides whether any header is built |
| Auth.AsciiBytes | storehub-mcp-server/main.py:69 | `encode('ascii')` succeeds exactly when every code point is below 128, and then yields those code points as bytes |
| Auth.AuthHeaders | storehub-mcp-server/main.py:60-76 | unconfigured credentials give no headers (both directions). A non-ASCII pair fails to encode (both directions). Otherwise exactly the three headers are built: JSON Content-Type and Accept, and an Authorization value `"Basic "` + base64 whose token decodes to the bytes of `account:key` |
| Auth.AuthorizationIsCanonical | storehub-mcp-server/main.py:68-76 | the Authorization token is exactly the padded standard base64 encoding of the `account:key` bytes, not just some text that decodes to them |
| Auth.AuthorizationDeterminesCredentials | storehub-mcp-server/main.py:68-76 | two pairs that produce the same Authorization value have the same `account:key` text |
| RateLimit.Wait | storehub-mcp-server/main.py:78-87 | the sleep is `350 - elapsed` when less than 350 ms have passed since the stamp, and 0 otherwise (both directions) |
| RateLimit.Stamp | storehub-mcp-server/main.py:78-89 | the stamp `rate_limited_delay` leaves, as a definition: the entry time plus the wait. `StampIsEarliestAllowed` states that it is max(now, last + 350) |
| RateLimit.StampIsEarliestAllowed | storehub-mcp-server/main.py:78-89 | the new stamp is at least the entry time and at least the old stamp + 350, and it equals one of the two, so it is the earliest such time |
| RateLimit.Schedule | storehub-mcp-server/main.py:78-89 | a series of acquisitions leaves one stamp per acquisition |
| RateLimit.ScheduleSpaced | storehub-mcp-server/main.py:78-89 | each stamp of a series of sequential calls lies exactly max(gap, 350) ms after the previous stamp |
| RateLimit.Clock.constructor | storehub-mcp-server/main.py:81 | the clock starts at the given time |
| RateLimit.Clock.Advance | storehub-mcp-server/main.py:87 | sleeping advances the clock by exactly the sleep |
| RateLimit.RateLimiter.constructor | storehub-mcp-server/main.py:47 | the stamp starts at 0 |
| RateLimit.RateLimiter.Acquire | storehub-mcp-server/main.py:78-89 | the clock ends at `Stamp(old stamp, old clock)` and the stamp is set to that time |
| ApiGateway.Details | storehub-mcp-server/main.py:163-168 | the detail suffix is `" Details: "` followed by the first min(len, 200) characters of the body |
| ApiGateway.NatToString | storehub-mcp-server/main.py:185 | the status is rendered as decimal digits with no leading zero (only 0 is written `"0"`), whose value is the status |
| ApiGateway.CanonicalDecimalUnique | storehub-mcp-server/main.py:185 | two digit strings with no leading zero and the same value are equal, so a status rendering in that form is `str(status)` |
| ApiGateway.Message | storehub-mcp-server/main.py:140-185 | the credentials message is its fixed text. An HTTP error's message is `"StoreHub API error: "` followed by the status in canonical decimal: digits with no leading zero that read back as the status, which `CanonicalDecimalUnique` shows is exactly `str(status)`. An unsupported verb is quoted after its fixed text. A rate-limit message names the endpoint, says to try later and ends with the details. A transport error keeps its own text |
| ApiGateway.RejectedAttemptMessage | storehub-mcp-server/main.py:160-185 | when the server answered with a status and the call failed, the message gives that status in canonical decimal, or, for a 409 whose retry failed, names the endpoint and ends with the details of the first body |
| ApiGateway.Attempts | storehub-mcp-server/main.py:148-185 | the first attempt goes out at the stamp. A 2xx reply returns its value, a transport failure is raised as it is, and any status but 409 fails at once with that status, each after one attempt. A 409 brings exactly one retry 2 s later, marked as a retry; its value is returned if it succeeds, and otherwise the rate-limit error naming the endpoint and the first body's details |
| ApiGateway.AttemptsOutcomeNamesReply | storehub-mcp-server/main.py:148-185 | read backwards: two attempts mean the first got a 409. A success is the last attempt's value. An HTTP error is a non-409 first status, after one attempt. A rate-limit error means the retry failed too |
| ApiGateway.AttemptsSendOnlyTheirRequest | storehub-mcp-server/main.py:148-180 | both the attempt and its retry send the call's own request |
| ApiGateway.Step | storehub-mcp-server/main.py:137-152 | unconfigured credentials fail before the limiter, sending nothing and leaving the clock alone. Otherwise the limiter stamps first. Non-ASCII credentials or an unknown verb then fail with nothing sent. The attempts go out with the Basic headers |
| ApiGateway.StepSendsOnlyItsRequest | storehub-mcp-server/main.py:137-185 | every attempt a call sends carries that call's own request |
| ApiGateway.StepSentShape | storehub-mcp-server/main.py:137-185 | a call logs nothing, or a first attempt at the new stamp (at least 350 ms after the old one) followed only by retries; the stamp never moves back |
| ApiGateway.PacedAppend | storehub-mcp-server/main.py:78-89 | a log stays paced when one first attempt, at a stamp at least 350 ms after the last one, is appended with only retries after it |
| ApiGateway.PacedAfterStep | storehub-mcp-server/main.py:142 | one more call keeps every pair of limiter-passing attempts at least 350 ms apart, all no later than the stamp |
| ApiGateway.Run | storehub-mcp-server/main.py:137-185 | a series of calls gives one result per request |
| ApiGateway.RunSnoc | storehub-mcp-server/main.py:137-185 | a series one request longer is that series followed by one more call |
| ApiGateway.IssuedAppend | storehub-mcp-server/main.py:142 | the requests that passed the limiter in two logs joined are those of each log, joined |
| ApiGateway.IssuedAttempts | storehub-mcp-server/main.py:148-185 | one call's attempts pass the limiter exactly once (the retry does not) |
| ApiGateway.IssuedStep | storehub-mcp-server/main.py:137-185 | a call with usable credentials and a supported verb passes its request through the limiter exactly once |
| ApiGateway.RunIssuesEveryRequest | storehub-mcp-server/main.py:137-185 | with usable credentials and supported verbs, a series of calls passes every request through the limiter once, in order, whatever the replies were |
| ApiGateway.RunPaced | storehub-mcp-server/main.py:78-89 | any series of calls keeps first attempts at least 350 ms apart |
| ApiGateway.Gateway.constructor | storehub-mcp-server/main.py:47 | a fresh gateway has stamp 0, nothing sent, and its invariant holds |
| ApiGateway.Gateway.Call | storehub-mcp-server/main.py:137-188 | the value returned or the error raised, the requests appended to the log, the new stamp and the new clock are exactly those of `Step` on the old state, and the pacing invariant is kept |
| ApiGateway.Gateway.Exchange | storehub-mcp-server/main.py:148-185 | the value or error, the attempts appended to the log and the new clock are exactly those of `Attempts` at the old clock |
| ProductNames.Swept | storehub-mcp-server/main.py:91-100 | the sweep keeps exactly the entries that are not older than 300 s, unchanged |
| ProductNames.Housekept | storehub-mcp-server/main.py:116-117 | the `len(product_cache) > 100` trigger as a definition: sweep only a cache of more than 100 entries. `SweepKeepsServable` and `RepeatWithinTTLHits` state what it preserves |
| ProductNames.Remember | storehub-mcp-server/main.py:125-135 | the miss path after the fetch, as a definition; `RememberWritesOnlyOnSuccess` states what it writes and returns |
| ProductNames.AgeOfTTLNeitherServedNorSwept | storehub-mcp-server/main.py:94-122 | an entry exactly 300 s old is neither served nor deleted |
| ProductNames.SweepKeepsServable | storehub-mcp-server/main.py:116-123 | the sweep before a lookup never changes whether that lookup hits |
| ProductNames.RememberWritesOnlyOnSuccess | storehub-mcp-server/main.py:125-135 | a successful fetch stores under `"product_<id>"`, with the lookup's start time, exactly the product's `name` field or `"Product <id>"` when it has none, leaves the other keys alone and returns that name. A failed fetch returns `"Product <id>"` and writes nothing |
| ProductNames.RepeatWithinTTLHits | storehub-mcp-server/main.py:108-135 | a second lookup less than 300 s after a successful fetch is served from the cache with the fetched name |
| ProductNames.RepeatAfterTTLMisses | storehub-mcp-server/main.py:108-135 | a second lookup 300 s or more later misses |
| ProductNames.ProductCache.constructor | storehub-mcp-server/main.py:50 | the cache starts empty |
| ProductNames.ProductCache.Cleanup | storehub-mcp-server/main.py:91-100 | the two loops leave exactly `Swept(old entries, now)` |
| ProductNames.ProductCache.GetName | storehub-mcp-server/main.py:108-135 | after the sweep over 100 entries, a hit returns the cached name with no request, no write and no time passing. A miss makes one gateway call, and the name and the new cache are `Remember` of its result |
| Stores.Matches | storehub-mcp-server/main.py:1145-1147 | the three-way match of the account id against a store's id and lowercased name, as a definition; `MatchIsIdOrSubstring` and `ContainsAtOffset` state what it accepts |
| Stores.Choose | storehub-mcp-server/main.py:1132-1155 | the choice from a non-empty list, as a definition; `SingleStoreIsTaken`, `FirstMatchingStoreWins` and `NoMatchTakesFirst` state its three cases |
| Stores.Resolution | storehub-mcp-server/main.py:1126-1159 | the outcome after a `/stores` call, as a definition; `ResolutionCachesWhatItReturns` states what is returned and cached |
| Stores.ContainsAtOffset | storehub-mcp-server/main.py:1147 | `needle in haystack` holds exactly when the needle occurs at some offset |
| Stores.MatchIsIdOrSubstring | storehub-mcp-server/main.py:1145-1147 | a store matches exactly when its id is the account id or its lowercased name contains the lowercased account id |
| Stores.FirstMatch | storehub-mcp-server/main.py:1140-1150 | gives the index of a matching store with no match before it, or none when no store matches |
| Stores.SingleStoreIsTaken | storehub-mcp-server/main.py:1133-1137 | a single store's id is taken, matching or not |
| Stores.FirstMatchingStoreWins | storehub-mcp-server/main.py:1140-1150 | among several stores the first matching one's id is chosen |
| Stores.NoMatchTakesFirst | storehub-mcp-server/main.py:1152-1155 | with several stores and no match the first store's id is chosen |
| Stores.Pick | storehub-mcp-server/main.py:1132-1155 | the choice made from a non-empty store list is `Choose`: the single store, else the first matching store, else the first store |
| Stores.ResolutionCachesWhatItReturns | storehub-mcp-server/main.py:1126-1159 | a failed fetch or an empty list returns None and leaves the cache as it was. Otherwise the chosen id is both returned and cached |
| Stores.StoreResolver.constructor | storehub-mcp-server/main.py:54 | the cache starts empty |
| Stores.StoreLookup | storehub-mcp-server/main.py:1118-1159 | as a value: a usable cached id is returned with no request and nothing changed. Any id returned is also what is cached afterwards, and nothing but `/stores` is asked for |
| Stores.StoreResolver.Resolve | storehub-mcp-server/main.py:1118-1159 | a truthy cached id is returned with no request and nothing changed. Otherwise one `/stores` call is made, and the returned and cached ids are `Resolution` of its result |
| SalesAnalytics.DateDefaults | storehub-mcp-server/main.py:508-511 | the default dates as a definition: seven days before today for a missing start, today for a missing end |
| SalesAnalytics.CheckRange | storehub-mcp-server/main.py:514-523 | refused as too large exactly when the span exceeds 90 days, as inverted exactly when it is negative, and accepted exactly when 0 <= span <= 90 |
| SalesAnalytics.Chunks | storehub-mcp-server/main.py:554-580 | the `while current_date <= to_dt` chunk sequence, as a definition. Its shape is stated by `ChunksShape`, `ChunksDisjoint`, `ChunkContaining` and `ChunkCount` |
| SalesAnalytics.ChunksShape | storehub-mcp-server/main.py:554-580 | the chunks are empty exactly when the range is, and start at `from` and end at `to`. Each chunk ends at min(start + 14, to), so it spans at most 14 days. Each chunk starts the day after the previous one ends |
| SalesAnalytics.ChunksDisjoint | storehub-mcp-server/main.py:554-580 | earlier chunks end before later ones start |
| SalesAnalytics.ChunkContaining | storehub-mcp-server/main.py:554-580 | every day of the range lies in some chunk |
| SalesAnalytics.ChunkCount | storehub-mcp-server/main.py:556-580 | a span of d days takes d / 15 + 1 chunks |
| SalesAnalytics.ReportedCallCountDisagrees | storehub-mcp-server/main.py:590-592 | for a 29-day span the loop makes 2 calls while the report says 3 |
| SalesAnalytics.ChunkRequests | storehub-mcp-server/main.py:561-570 | one `/transactions` request per chunk, carrying that chunk's bounds, the store and the online flag |
| SalesAnalytics.Contribution | storehub-mcp-server/main.py:571-578 | one chunk's records as a definition: the reply's list, or nothing for a null reply or a failed call. `FailedChunkSkipped` states the failure case |
| SalesAnalytics.Gather | storehub-mcp-server/main.py:571-575 | `all_transactions.extend` over the chunks, as a definition. `GatherSnoc`, `GatherAppend` and `ChunkRecordsInPlace` state how the records are joined |
| SalesAnalytics.GatherAppend | storehub-mcp-server/main.py:571-578 | the records of two runs of chunks joined are the records of each, joined |
| SalesAnalytics.GatherSnoc | storehub-mcp-server/main.py:571-575 | one more chunk appends exactly its records |
| SalesAnalytics.FailedChunkSkipped | storehub-mcp-server/main.py:571-578 | a failing chunk contributes nothing and the chunks around it keep their records and order |
| SalesAnalytics.ChunkRecordsInPlace | storehub-mcp-server/main.py:571-575 | each chunk's records appear whole in the result, after those of all earlier chunks |
| SalesAnalytics.ChunkedFetchIssuesEveryChunk | storehub-mcp-server/main.py:556-580 | with usable credentials the chunked fetch passes one request per chunk through the limiter, in chunk order |
| SalesAnalytics.ChunkTraceSnoc | storehub-mcp-server/main.py:556-580 | one more chunk is one more call after those of the earlier chunks, and its records go after theirs |
| SalesAnalytics.FetchChunk | storehub-mcp-server/main.py:559-578 | one turn of the loop makes that chunk's one call, and adds its records (none for a failure or a null reply) |
| SalesAnalytics.Fetch | storehub-mcp-server/main.py:533-580 | as a value: a chunked fetch never fails as a whole, since a failed chunk is skipped |
| SalesAnalytics.FetchIssues | storehub-mcp-server/main.py:533-580 | with usable credentials a span of at most 14 days issues exactly the one request for the whole range; a longer one issues each chunk's request in chunk order |
| SalesAnalytics.FetchTransactions | storehub-mcp-server/main.py:533-580 | the result, log, stamp and clock are those of `Fetch`: one call for a span of at most 14 days, with a null reply read as no records; otherwise the chunk calls of `Run`, whose result is the in-order records of the chunks that succeeded |
| SalesAnalytics.FetchChunked | storehub-mcp-server/main.py:551-580 | the loop's calls, log, stamp and clock are those of `Run` over the chunk requests, and its records are `Gather` of their results |
| SalesAnalytics.SalesTransactions | storehub-mcp-server/main.py:503-580 | a refused range sends nothing and leaves the store cache, stamp and clock alone. An accepted range, with `include_online` defaulting to true, has exactly the effect of `HandleRange`: outcome, cache, log, stamp and clock. Without a usable store id only `/stores` requests have gone out |
| SalesAnalytics.SalesInRange | storehub-mcp-server/main.py:525-580 | the outcome, the store cache, the log, the stamp and the clock are exactly those of `HandleRange` on the old state. Without a usable store id only `/stores` requests have gone out |
| SalesAnalytics.HandleRange | storehub-mcp-server/main.py:525-580 | as a value: the outcome is records, an API error or "no store" |
| SalesAnalytics.NoStoreOnlyAfterLookup | storehub-mcp-server/main.py:525-531 | the handler reports no store exactly when resolution gives no usable id, and it has then asked for nothing but `/stores` |
| SalesAnalytics.HandlerIssuesLookupThenFetch | storehub-mcp-server/main.py:525-580 | with usable credentials and a usable store, the handler issues `/stores` unless the cache answered, then the one request of a short span or every chunk's request in order, for that store; a long span is never refused |
| Inventory.Classify | storehub-mcp-server/main.py:379-389 | out of stock exactly when the quantity is at most 0. Low stock exactly when it is positive and at or below a set (non-zero) warning level. In stock otherwise |
| Inventory.Reorder | storehub-mcp-server/main.py:398-404 | a recommendation exists exactly when the quantity is at or below a set warning level, whatever the status. It fills up to a set ideal level, and otherwise is the larger of 10 and twice the warning level |
| Inventory.RecommendationFollowsStatus | storehub-mcp-server/main.py:379-404 | low-stock items always get a recommendation and in-stock items never. Out-of-stock items get one exactly when they are at or below a set warning level |
| Inventory.LowStockNeedsPositiveWarning | storehub-mcp-server/main.py:383 | only a warning level at or above a positive quantity makes an item low |
| Inventory.IdealBelowStockGivesNonPositiveReorder | storehub-mcp-server/main.py:400-402 | with an ideal level not above the stock on hand, the recommendation is zero or negative |
| Inventory.CountOf | storehub-mcp-server/main.py:357-388 | a status count never exceeds the number of items |
| Inventory.CountsPartition | storehub-mcp-server/main.py:357-414 | out-of-stock, low-stock and in-stock counts add up to the total |
| Inventory.Tally | storehub-mcp-server/main.py:357-414 | the loop's out and low counts are the true counts, and the reported in-stock figure `total - low - out` is the true in-stock count |

## Left out

- HTTP transport, JSON parsing, timeouts and `asyncio` are replaced by the server function. A reply that is not JSON, or a body that cannot be read as text, is modelled as `Failed`. The 30 s client timeout is not modelled.
- Attempts take no time on the clock. Only sleeps advance it.
- Concurrency is not modelled. Several callers could interleave the limiter's check and stamp; the model is single-threaded. Pacing is proved for sequential calls only.
- ApiGateway.RunPaced: spacing is proved for limiter-passing first attempts only. A 409 retry bypasses the limiter, so a retry and the next request may go out closer than 350 ms. That is how the source behaves.
- Time is whole milliseconds; the source's float seconds are not modelled.
- Logging (`logger.info` and `logger.error` calls, such as the limiter's wait message and the 409 body log) has no effect on the modelled state and is not modelled.
- The tool-level wrapping of an exception message into an `"Error: ..."` reply is not modelled; `Message` gives the exception text itself.
- Environment variables: an unset secret reads as the empty string. Secrets are given to the gateway at construction, and `load_dotenv` is not modelled.
- The text of Python's `UnicodeEncodeError` for non-ASCII credentials is not reproduced. The model raises `NonAsciiCredentials`.
- Stores.Matches: lowercasing is ASCII-only; `str.lower()` on other scripts is not modelled.
- ProductNames: a `name` field that is present but not a string, and `id`/`name` store fields that are not strings, are not modelled.
- SalesAnalytics: dates are day numbers. Parsing and formatting of `YYYY-MM-DD` strings, and the "invalid date format" reply, are not modelled. So are the revenue, average order value, online and cancellation figures computed after the fetch (floating point) and the report text.
- Inventory: the per-item product name and SKU requests, the report text, and a `quantityOnHand` that is present but null are not modelled. Quantities are integers.
- The other tool handlers (products, customers, stores, employees, timesheets, connection test), the tool schemas, dispatch and stdio transport are not part of this model.

## Findings

| source | as written | input that shows it | evidently intended | confidence | as-written member | corrected member |
|---|---|---|---|---|---|---|
| storehub-mcp-server/main.py:591 | the "retrieved in N API calls" figure is `d // 14 + (1 if d % 14 > 0 else 0)` | a 29-day span: the loop fetches [from, from+14] and [from+15, from+29], 2 calls, but the report says 3 | report the number of chunks the loop actually fetched, `d // 15 + 1` | not executed | SalesAnalytics.ReportedCallCountDisagrees | SalesAnalytics.ChunkCount |
