# market-trader ETL core in Dafny

This project models the two stages of the market-trader ETL pipeline that talk
to the TD Ameritrade API and to MongoDB:

- **Call** (`etl/tdapicaller.go`). It shapes one HTTP request per attempt:
  - the endpoint;
  - the `Authorization: Bearer` header;
  - the `apikey` parameter;
  - for Macros, `projection=fundamental&symbol=…`;
  - for the price kinds, a price-history window: Medium uses 30-minute bars over 15 days, and Short/Signals use 15-minute bars over 14 hours. Dates are in milliseconds.

  Each response is classified as UNAUTHORIZED (401), SERVER_ERROR (429 or ≥ 500), another status failure (≥ 400), a decode failure, or success. Every attempt makes one audit write. Only SERVER_ERROR is retried, for at most 10 attempts. The delay after attempt `n` is `backOff(n) + 750 ms · ⌊1.6 n⌋ + 1 s`.
- **TransformLoad** (`etl/tdapitransformload.go`). It dispatches on the work kind:
  - **Macros:** market cap is rounded. Below 500, only `marketCap` is upserted. Otherwise 32 more fundamental fields are rounded and the whole instrument is upserted.
  - **Medium, Short, Signals:** the aggregated price history is upserted, keyed by its own symbol.

  The work item is then removed from the queue.

Modules:

| file | module | contents |
|---|---|---|
| `etl_types.dfy` | `EtlTypes` | `Option`, `Result`, `WorkKind`, `EtlConfig`, decoded `Json` |
| `strconv.dfy` | `Strconv` | decimal `FormatInt` / `ParseInt` and their round trip |
| `tdapicaller.dfy` | `TdApiCaller` | request shaping, classification, retry policy, audit trail. Classes `UrlValues`, `HttpRequest`, `ApiService` |
| `tdapitransformload.dfy` | `TdApiTransformLoad` | `Instrument` / `Fundamental`, rounding, the market-cap gate, upserts, queue removal. Class `MongoController` and method `TransformLoad` |

The outside world is represented as follows:

- **One attempt's view of the world.** Everything an attempt observes is one `Exchange` value: the clock, the token that `token.Fetch` returns, the HTTP status, the keys the JSON decoder writes, whether decoding succeeded, and whether the audit write was stored. `Call` consumes a sequence of them, one per attempt.
- **Imperative parts.** They are classes whose methods change fields named in `modifies`:
  - the `url.Values` and the request being shaped;
  - the audit log (`apiCalls`);
  - the Mongo collections and the queue.

  Each method is proved equal to a pure specification function (`ShapedRequest`, `SentRequests`, `AuditTrail`, `CallResult`, `Load`). The source's promises are then proved as lemmas about those functions.

## Model

| member | source | states |
|---|---|---|
| TdApiCaller.StringFormatDate | etl/tdapicaller.go:205-207 | the date string parses back to the Unix time in milliseconds (seconds × 1000) |
| Strconv.FormatIntRoundTrip | etl/tdapicaller.go:206 | decimal formatting of any integer parses back to the same integer |
| Strconv.FormatIntInjective | etl/tdapicaller.go:206 | distinct integers give distinct decimal strings |
| TdApiCaller.PriceHistoryParamsKeys | etl/tdapicaller.go:169-177 | the six price-history parameters are added once each with the query's values, and existing parameters are kept unchanged |
| TdApiCaller.MacrosRequestShape | etl/tdapicaller.go:59-73 | Macros sends to the instruments URL, with exactly the bearer header and the query `apikey`, `projection=fundamental`, `symbol=<configured symbol>` |
| TdApiCaller.PriceHistoryRequestShape | etl/tdapicaller.go:59-98 | price kinds send to the symbol's price-history URL with exactly seven parameters: day/minute, extended hours, frequency 30 for Medium and 15 otherwise. The end date is the next day's start in ms. The start date is 15 days earlier for Medium and 14 hours earlier otherwise |
| TdApiCaller.Classify | etl/tdapicaller.go:105-124 | each outcome holds iff its condition holds: UNAUTHORIZED iff 401; SERVER_ERROR iff 429 or ≥ 500; other status failure iff ≥ 400 and not one of those, carrying the code; decode failure iff < 400 and the decode failed; success iff < 400 and decoded |
| TdApiCaller.RetriedStatuses | etl/tdapicaller.go:107-131 | an attempt is retried iff its status is 429 or ≥ 500 |
| TdApiCaller.Attempts | etl/tdapicaller.go:126-132 | a call makes 1 to 10 attempts. Every attempt before the last was retried. The last one was not retried, unless it was the 10th |
| TdApiCaller.AttemptsStopAt | etl/tdapicaller.go:126-132 | if attempts 0..k−1 are retried and attempt k is not (or k is the 10th), exactly k+1 attempts are made |
| TdApiCaller.CallResultAt | etl/tdapicaller.go:143-149 | the call returns the accumulated body and config when the last attempt succeeded, and otherwise the log of all attempt errors |
| TdApiCaller.Delay | etl/tdapicaller.go:136-140 | the wait after an attempt is at least one second plus the backoff |
| TdApiCaller.DelayLinearPart | etl/tdapicaller.go:139 | the added term is a multiple of 750 ms whose factor is ⌊1.6 n⌋ |
| TdApiCaller.DelayLinearPartMonotone | etl/tdapicaller.go:139 | the added term never decreases with the attempt number |
| TdApiCaller.UnauthorizedIsFinal | etl/tdapicaller.go:107-110 | a 401 on the first attempt ends the call after one attempt with [UNAUTHORIZED], after at most one stored audit write |
| TdApiCaller.RetriesUntilSuccess | etl/tdapicaller.go:111-132 | server errors followed by a decoded success at attempt k give k+1 attempts and a success carrying the body |
| TdApiCaller.ThreeAttemptScenario | etl/tdapicaller.go:52-149 | 429, 429, then 200 makes three attempts, succeeds and makes three stored audit writes |
| TdApiCaller.ExhaustsAfterMaxAttempts | etl/tdapicaller.go:111-132 | ten server errors make exactly ten attempts and fail with ten SERVER_ERRORs |
| TdApiCaller.CallOutcomeShape | etl/tdapicaller.go:107-149 | the call succeeds iff the last attempt had status < 400 and decoded. On failure the error log has one entry per attempt: all SERVER_ERROR except the last, which is not SERVER_ERROR when fewer than 10 attempts were made |
| TdApiCaller.AuditOnePerAttempt | etl/tdapicaller.go:105-106 | when every audit write is stored, there is exactly one audit write per attempt, made after decoding, with the attempt's status, the endpoint and the body so far |
| TdApiCaller.AuditAtMostOnePerAttempt | etl/tdapicaller.go:106 | no attempt makes more than one audit write |
| TdApiCaller.BodyKeepsEarlierEntries | etl/tdapicaller.go:49-51 | the body map is shared across attempts: keys decoded in an earlier attempt are still present later |
| TdApiCaller.SentRequestAt | etl/tdapicaller.go:65-66 | the i-th request sent is shaped with the i-th attempt's own fresh token and clock |
| TdApiCaller.ApiService.AddAuth | etl/tdapicaller.go:152-154 | adds one `Authorization: Bearer <token>` header value and leaves the query unchanged |
| TdApiCaller.ApiService.AddApiKey | etl/tdapicaller.go:156-158 | adds one `apikey` value to the query |
| TdApiCaller.ApiService.AddFetchPriceHistoryQuery | etl/tdapicaller.go:169-177 | adds the six price-history parameters in order |
| TdApiCaller.ApiService.InsertResponse | etl/tdapicaller.go:180-194 | appends the record (config, body, status, path) when the store accepts it and reports the store's error otherwise |
| TdApiCaller.ApiService.ShapeRequest | etl/tdapicaller.go:58-98 | builds a fresh request equal to the specified shape for the kind, token and clock |
| TdApiCaller.ApiService.Attempt | etl/tdapicaller.go:53-125 | one attempt: sends the shaped request, merges the decoded keys into the shared body, makes its audit write and returns its classified error |
| TdApiCaller.ApiService.Call | etl/tdapicaller.go:39-150 | the requests sent, the waits, the audit log and the result are exactly those of the retry policy over the attempts made |
| TdApiTransformLoad.RoundedFieldsAreAllButFive | etl/tdapitransformload.go:35-66 | the rounded fields are every float field except sharesOutstanding, marketCap and the three volume averages |
| TdApiTransformLoad.FullPathRounding | etl/tdapitransformload.go:20-66 | on the full path, market cap and exactly the 32 listed fields are replaced by their rounded values. Every other field is kept as decoded |
| TdApiTransformLoad.MarketCapGate | etl/tdapitransformload.go:20-32 | below 500 after rounding, only `marketCap` is set on the configured symbol's Macros document, and the item is still removed |
| TdApiTransformLoad.FullInstrumentWrite | etl/tdapitransformload.go:34-72 | at or above 500, the planned write sets the instrument fields, with the rounded fundamental, keyed by the configured symbol |
| TdApiTransformLoad.FullInstrumentStored | etl/tdapitransformload.go:69-75 | at or above 500, the Macros collection becomes the upsert of the whole instrument, whose `fundamental` field is the rounded one |
| TdApiTransformLoad.UpsertSetsFields | etl/tdapitransformload.go:24-27 | `$set` with upsert: the written fields are set, other fields of the document and other documents are kept, and a missing document is created |
| TdApiTransformLoad.UpsertIdempotent | etl/tdapitransformload.go:69-72 | setting the same fields twice equals setting them once |
| TdApiTransformLoad.PriceHistoryKeyedByCandles | etl/tdapitransformload.go:76-102 | price kinds upsert into their own collection, keyed by the aggregated candles' symbol |
| TdApiTransformLoad.MissingInstrumentPanics | etl/tdapitransformload.go:16-20 | a Macros response with no entry, or a null entry, for the configured symbol decodes to the zero instrument and panics on its nil market cap before writing anything |
| TdApiTransformLoad.FailedAggregationPanics | etl/tdapitransformload.go:115-125 | when aggregation fails, the candles are nil and the load panics before writing anything |
| TdApiTransformLoad.WritesOnlyOwnCollection | etl/tdapitransformload.go:14-103 | a load leaves every collection of another kind unchanged |
| TdApiTransformLoad.LoadOfPlannedWrite | etl/tdapitransformload.go:103-112 | once the upsert succeeds, the item is removed from the queue when the removal succeeds. Otherwise the stored document stays and the error is returned |
| TdApiTransformLoad.FailureKeepsItemQueued | etl/tdapitransformload.go:13-112 | a panic or upsert failure changes nothing; any failure keeps the item queued; the result is success iff the write was possible and both store calls succeeded |
| TdApiTransformLoad.LoadIdempotent | etl/tdapitransformload.go:69-112 | loading the same response again leaves the store as it is |
| TdApiTransformLoad.QueueDrains | etl/tdapitransformload.go:105-112 | two successful loads in a row remove both items from the queue |
| TdApiTransformLoad.MongoController.UpdateOne | etl/tdapitransformload.go:24-30 | a successful upsert changes only the target collection. A failed one changes nothing |
| TdApiTransformLoad.MongoController.Remove | etl/tdapitransformload.go:105-108 | a successful removal takes the item out of the queue. A failed one changes nothing |
| TdApiTransformLoad.TransformLoad | etl/tdapitransformload.go:13-113 | the new store and the outcome are those of the specification `Load` on the old store |

## Left out

- HTTP transport, URL encoding (`query.Encode`) and JSON decoding are not modelled. Each attempt's status and decoded keys come from its `Exchange`, and the query is kept as the `url.Values` map before encoding.
- `InstrumentsUrl`, `PriceHistoryUrl`, `UNAUTHORIZED` and `SERVER_ERROR` are defined outside these files. They are modelled as an endpoint constructor and error constructors, assuming the URLs carry no query of their own and that no other error text equals SERVER_ERROR.
- A transport error from `client.Do` panics in the source. The model has no such attempt: every `Exchange` carries a status.
- A JSON `null` response body, which resets the shared map to nil, is not modelled. Decoding only adds keys.
- `token.Fetch`, `time.Now`, `shared.Bod`/`shared.NextDay` and `retry.BackOffDelay` are parameters: a token and a clock per attempt, a `nextDayOfBod` function, and a `backOff` function.
- `AddDate(0, 0, -15)` is modelled as 15 × 86400 seconds. Calendar days across a daylight-saving change are not modelled.
- Sleeping is not performed. The waits are returned as a sequence of millisecond delays. Logging, `OnRetry` and the commented-out retryablehttp client are left out.
- The zero `ApiCallSuccess{}` returned with an error is represented by the `Failure` result alone. retry-go's combined error is the list of attempt errors.
- `ApiCalls.Cache` is modelled as appending one entry per stored audit write to a log, with its success as a flag. Its code is not part of this model: it is keyed by the work item, so the entries count writes, not distinct stored documents.
- `Round`, `calculatePriceHistory` and the JSON round trip into `Instrument` / `PriceHistory` are given as functions (`Collaborators`). `float64` is modelled as `real`.
- Go's int64 arithmetic is modelled with unbounded `int`: `t.Unix()*1000` (etl/tdapicaller.go:206) and the `time.Duration` sum of the delay (etl/tdapicaller.go:139). Neither overflows for real clock values and for the at most nine waits (n ≤ 8), given the backoff stays far below the int64 range.
- The `PriceHistory` struct is not part of this model. Its stored fields are assumed to be `symbol` and `candles`.
- TdApiTransformLoad.TransformLoad: the 32 in-place pointer writes of the rounding block are modelled as a single value update (`RoundedFundamental`). Each field is written exactly once, so their order is not observable.
- TdApiTransformLoad.LoadIdempotent: holds only while the stored document keeps the filter's symbol, because documents are filed under the filter key. On the full Macros path `$set` also writes the decoded `symbol` (etl/tdapitransformload.go:69-72). When that is nil or differs from the configured symbol, the stored document no longer matches `{symbol: <configured symbol>}`, and the next identical load inserts a second document in the source. The model instead updates the same entry, so idempotence there is a property of the model, not of the source. It holds in the source when `DecodedInstrument(resp, env).symbol == Some(resp.config.symbol)`, and always for the price kinds, whose key is the symbol they set.
- Mongo documents are maps keyed by the filter's symbol. Server-side effects are not modelled: `_id` immutability, and a `$set` that rewrites the `symbol` field away from the filter key.
- A nil dereference (a missing market cap or rounded field, or nil candles) is the `Panicked` outcome, with no state change. Process termination itself is not modelled.
- `ApiQueue.Queue` (enqueueing) and `cmd/assign/short/main.go` are not modelled.

Behaviour of the code that the model follows deliberately:
- A transport error from `client.Do` panics (etl/tdapicaller.go:99-102); it is not retried.
- A decode failure returns the decoder's error (etl/tdapicaller.go:120-122); only SERVER_ERROR is retried (etl/tdapicaller.go:126-131).
- An exhausted call returns the errors of every attempt, as retry-go's `Do` combines them (etl/tdapicaller.go:52-145), not only the last one.
- Price-history documents are keyed by the aggregated candles' symbol (etl/tdapitransformload.go:79, 88, 97), not the configured one.
