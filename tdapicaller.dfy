/**
 * The retrying API caller of the ETL pipeline (etl/tdapicaller.go).
 *
 * One attempt shapes a GET request for the work item, sends it, decodes the
 * JSON body into a map captured across attempts, writes an audit record and
 * classifies the status code.  Call repeats attempts under the retry policy:
 * only SERVER_ERROR is retried, at most ten attempts are made, and the wait
 * after failed attempt n is BackOffDelay(n) + 750ms * floor(16n/10) + 1s.
 *
 * The network, the clock and the token provider are not modelled: what each
 * attempt sees (the time, the fetched token, the status code, the decoded
 * entries, whether decoding succeeded and whether the audit write was
 * stored) is given to Call as one Exchange per attempt.
 */
module TdApiCaller {
  import opened EtlTypes
  import opened Strconv

  /** Multi-valued string parameters, as url.Values and http.Header hold them. */
  type Params = map<string, seq<string>>

  /** url.Values.Add and http.Header.Add: append one value to the values of key. */
  function AddParam(p: Params, key: string, value: string): Params {
    if key in p then p[key := p[key] + [value]] else p[key := [value]]
  }

  /** The two endpoints; PriceHistoryUrl(symbol) embeds the symbol in the path. */
  datatype Endpoint = InstrumentsUrl | PriceHistoryUrl(symbol: string)

  /** The request as it goes on the wire. */
  datatype SentRequest = SentRequest(endpoint: Endpoint, header: Params, query: Params)

  /** What the outside world gives one attempt. */
  datatype Exchange = Exchange(
    now: int,                    // time.Now(), in unix seconds
    token: string,               // token.Fetch() for this attempt
    status: int,                 // resp.StatusCode
    entries: map<string, Json>,  // what the JSON decoder stores into the body map
    decodeOk: bool,              // the decoder returned no error
    auditStored: bool)           // the audit collection accepted the record

  /** HttpResponsesDocument: one logged HTTP exchange. */
  datatype AuditRecord = AuditRecord(config: EtlConfig, body: map<string, Json>, status: int, path: Endpoint)

  /** A successful call: the decoded body and the work item it answers. */
  datatype ApiCallSuccess = ApiCallSuccess(body: map<string, Json>, config: EtlConfig)

  /** The errors one attempt can return. */
  datatype CallError =
    | Unauthorized           // errors.New(UNAUTHORIZED)
    | ServerError            // errors.New(SERVER_ERROR)
    | StatusFailed(code: int) // "Api call failed with status code: " + code
    | DecodeFailed           // the error of the JSON decoder

  datatype PriceHistoryQuery = PriceHistoryQuery(
    periodType: string,
    frequencyType: string,
    frequency: string,
    startDate: string,
    endDate: string,
    needExtendedHoursData: string)

  const MaxAttempts: nat := 10
  const OneSecondMs: nat := 1000
  const BackoffStepMs: nat := 750
  const SecondsPerHour: int := 3600
  const SecondsPerDay: int := 86400

  // ---------------------------------------------------------------------------
  // Request shaping

  function EndpointFor(config: EtlConfig): Endpoint {
    match config.work
    case Macros => InstrumentsUrl
    case Medium | Short | Signals => PriceHistoryUrl(config.symbol)
  }

  /** stringFormatDate: unix seconds, times 1000, in decimal. */
  function StringFormatDate(unixSeconds: int): (s: string)
    ensures ParseInt(s) == Some(unixSeconds * 1000)
  {
    FormatIntRoundTrip(unixSeconds * 1000);
    FormatInt(unixSeconds * 1000)
  }

  /** The six query values AddFetchPriceHistoryQuery adds, in its order. */
  function PriceHistoryParams(q: Params, p: PriceHistoryQuery): Params {
    var q := AddParam(q, "periodType", p.periodType);
    var q := AddParam(q, "frequencyType", p.frequencyType);
    var q := AddParam(q, "frequency", p.frequency);
    var q := AddParam(q, "startDate", p.startDate);
    var q := AddParam(q, "endDate", p.endDate);
    AddParam(q, "needExtendedHoursData", p.needExtendedHoursData)
  }

  /** The price-history window: 30-minute bars over 15 days for Medium,
      15-minute bars over 14 hours for Short and Signals. */
  function WindowQuery(kind: WorkKind, endDate: int): PriceHistoryQuery
    requires kind != Macros
  {
    if kind == Medium then
      PriceHistoryQuery("day", "minute", "30",
        StringFormatDate(endDate - 15 * SecondsPerDay), StringFormatDate(endDate), "true")
    else
      PriceHistoryQuery("day", "minute", "15",
        StringFormatDate(endDate - 14 * SecondsPerHour), StringFormatDate(endDate), "true")
  }

  /** The query one attempt sends, given the end of the window. */
  function ShapedQuery(config: EtlConfig, apikey: string, endDate: int): Params {
    var q := AddParam(map[], "apikey", apikey);
    match config.work
    case Macros => AddParam(AddParam(q, "projection", "fundamental"), "symbol", config.symbol)
    case Medium | Short | Signals => PriceHistoryParams(q, WindowQuery(config.work, endDate))
  }

  /** The request one attempt sends. */
  function ShapedRequest(config: EtlConfig, apikey: string, token: string, endDate: int): SentRequest {
    SentRequest(EndpointFor(config),
      AddParam(map[], "Authorization", "Bearer " + token),
      ShapedQuery(config, apikey, endDate))
  }

  /** AddFetchPriceHistoryQuery adds exactly six keys, one value each. */
  lemma PriceHistoryParamsKeys(q: Params, p: PriceHistoryQuery)
    requires q.Keys !! {"periodType", "frequencyType", "frequency", "startDate", "endDate", "needExtendedHoursData"}
    ensures var r := PriceHistoryParams(q, p);
      && r.Keys == q.Keys + {"periodType", "frequencyType", "frequency", "startDate", "endDate", "needExtendedHoursData"}
      && (forall k :: k in q ==> r[k] == q[k])
      && r["periodType"] == [p.periodType]
      && r["frequencyType"] == [p.frequencyType]
      && r["frequency"] == [p.frequency]
      && r["startDate"] == [p.startDate]
      && r["endDate"] == [p.endDate]
      && r["needExtendedHoursData"] == [p.needExtendedHoursData]
  {
  }

  /** Macros asks the instruments endpoint for the fundamental projection of the symbol. */
  lemma MacrosRequestShape(config: EtlConfig, apikey: string, token: string, endDate: int)
    requires config.work == Macros
    ensures var r := ShapedRequest(config, apikey, token, endDate);
      && r.endpoint == InstrumentsUrl
      && r.header == map["Authorization" := ["Bearer " + token]]
      && r.query == map["apikey" := [apikey], "projection" := ["fundamental"], "symbol" := [config.symbol]]
  {  }

  /** The price-history kinds ask for day periods of minute bars with extended hours;
      Medium uses 30-minute bars over the 15 days before the end, Short and Signals
      15-minute bars over the 14 hours before it; dates are milliseconds. */
  lemma PriceHistoryRequestShape(config: EtlConfig, apikey: string, token: string, endDate: int)
    requires config.work != Macros
    ensures var r := ShapedRequest(config, apikey, token, endDate);
      && r.endpoint == PriceHistoryUrl(config.symbol)
      && r.header == map["Authorization" := ["Bearer " + token]]
      && r.query.Keys == {"apikey", "periodType", "frequencyType", "frequency", "startDate", "endDate", "needExtendedHoursData"}
      && r.query["apikey"] == [apikey]
      && r.query["periodType"] == ["day"]
      && r.query["frequencyType"] == ["minute"]
      && r.query["frequency"] == (if config.work == Medium then ["30"] else ["15"])
      && r.query["needExtendedHoursData"] == ["true"]
      && |r.query["startDate"]| == 1 && |r.query["endDate"]| == 1
      && ParseInt(r.query["endDate"][0]) == Some(endDate * 1000)
      && ParseInt(r.query["startDate"][0]) == Some(
           if config.work == Medium then (endDate - 15 * SecondsPerDay) * 1000
           else (endDate - 14 * SecondsPerHour) * 1000)
  {
    var q := AddParam(map[], "apikey", apikey);
    PriceHistoryParamsKeys(q, WindowQuery(config.work, endDate));
  }

  // ---------------------------------------------------------------------------
  // Status classification and retry policy

  /** The outcome of one attempt: None when it succeeds. */
  function Classify(status: int, decodeOk: bool): (r: Option<CallError>)
    ensures r == Some(Unauthorized) <==> status == 401
    ensures r == Some(ServerError) <==> status == 429 || 500 <= status
    ensures r.Some? && r.value.StatusFailed? <==> 400 <= status && status != 401 && status != 429 && status < 500
    ensures r.Some? && r.value.StatusFailed? ==> r.value.code == status
    ensures r == Some(DecodeFailed) <==> status < 400 && !decodeOk
    ensures r.None? <==> status < 400 && decodeOk
  {
    if 400 <= status then
      if status == 401 then Some(Unauthorized)
      else if status == 429 then Some(ServerError)
      else if 500 <= status then Some(ServerError)
      else Some(StatusFailed(status))
    else if !decodeOk then Some(DecodeFailed)
    else None
  }

  /** The RetryIf predicate: only SERVER_ERROR is retried. */
  predicate RetryIf(e: CallError) {
    e == ServerError
  }

  function ErrorOf(x: Exchange): Option<CallError> {
    Classify(x.status, x.decodeOk)
  }

  predicate Retried(x: Exchange) {
    ErrorOf(x).Some? && RetryIf(ErrorOf(x).value)
  }

  /** An attempt is retried exactly when its status is 429 or 5xx. */
  lemma RetriedStatuses(x: Exchange)
    ensures Retried(x) <==> x.status == 429 || 500 <= x.status
  {
  }

  /** The number of attempts made from attempt i on, when attempt i is made. */
  function AttemptsFrom(xs: seq<Exchange>, i: nat): (n: nat)
    requires i < MaxAttempts <= |xs|
    ensures i < n <= MaxAttempts
    ensures forall j :: i <= j < n - 1 ==> Retried(xs[j])
    ensures n < MaxAttempts ==> !Retried(xs[n - 1])
    decreases MaxAttempts - i
  {
    if !Retried(xs[i]) || i == MaxAttempts - 1 then i + 1 else AttemptsFrom(xs, i + 1)
  }

  /** The number of attempts Call makes. */
  function Attempts(xs: seq<Exchange>): (n: nat)
    requires MaxAttempts <= |xs|
    ensures 1 <= n <= MaxAttempts
    ensures forall j :: 0 <= j < n - 1 ==> Retried(xs[j])
    ensures n < MaxAttempts ==> !Retried(xs[n - 1])
  {
    AttemptsFrom(xs, 0)
  }

  /** Started at attempt i, the attempts stop where the run of retried attempts ends. */
  lemma {:induction false} AttemptsFromStopAt(xs: seq<Exchange>, i: nat, k: nat)
    requires i <= k < MaxAttempts <= |xs|
    requires forall j :: i <= j < k ==> Retried(xs[j])
    requires !Retried(xs[k]) || k == MaxAttempts - 1
    ensures AttemptsFrom(xs, i) == k + 1
    decreases k - i
  {
    if i < k {
      AttemptsFromStopAt(xs, i + 1, k);
    }
  }

  /** Attempts is fixed by where the run of retried attempts ends. */
  lemma AttemptsStopAt(xs: seq<Exchange>, k: nat)
    requires k < MaxAttempts <= |xs|
    requires forall j :: 0 <= j < k ==> Retried(xs[j])
    requires !Retried(xs[k]) || k == MaxAttempts - 1
    ensures Attempts(xs) == k + 1
  {
    AttemptsFromStopAt(xs, 0, k);
  }

  /** The body map after the first n attempts have decoded into it. */
  function BodyAfter(xs: seq<Exchange>, n: nat): map<string, Json>
    requires n <= |xs|
  {
    if n == 0 then map[] else BodyAfter(xs, n - 1) + xs[n - 1].entries
  }

  /** The errors of the first n attempts, as retry.Do collects them. */
  function ErrorLog(xs: seq<Exchange>, n: nat): (log: seq<CallError>)
    requires n <= |xs|
    requires forall i :: 0 <= i < n ==> ErrorOf(xs[i]).Some?
    ensures |log| == n
    ensures forall i :: 0 <= i < n ==> log[i] == ErrorOf(xs[i]).value
  {
    if n == 0 then [] else ErrorLog(xs, n - 1) + [ErrorOf(xs[n - 1]).value]
  }

  /** What attempt x adds to the audit collection. */
  function AuditEntry(config: EtlConfig, x: Exchange, body: map<string, Json>): seq<AuditRecord> {
    if x.auditStored then [AuditRecord(config, body, x.status, EndpointFor(config))] else []
  }

  /** What the first n attempts add to the audit collection. */
  function AuditTrail(config: EtlConfig, xs: seq<Exchange>, n: nat): seq<AuditRecord>
    requires n <= |xs|
  {
    if n == 0 then [] else AuditTrail(config, xs, n - 1) + AuditEntry(config, xs[n - 1], BodyAfter(xs, n))
  }

  /** The value Call returns: the decoded body with the work item, or the attempt errors. */
  function CallResult(config: EtlConfig, xs: seq<Exchange>): Result<ApiCallSuccess, seq<CallError>>
    requires MaxAttempts <= |xs|
  {
    var n := Attempts(xs);
    if ErrorOf(xs[n - 1]).None? then Success(ApiCallSuccess(BodyAfter(xs, n), config))
    else Failure(ErrorLog(xs, n))
  }

  /** The requests of the first n attempts. */
  function SentRequests(config: EtlConfig, apikey: string, xs: seq<Exchange>, nextDayOfBod: int -> int, n: nat): (r: seq<SentRequest>)
    requires n <= |xs|
    ensures |r| == n
  {
    if n == 0 then []
    else SentRequests(config, apikey, xs, nextDayOfBod, n - 1) + [ShapedRequest(config, apikey, xs[n - 1].token, nextDayOfBod(xs[n - 1].now))]
  }

  /** Attempt i sends the request shaped with its own time and freshly fetched token. */
  lemma {:induction false} SentRequestAt(config: EtlConfig, apikey: string, xs: seq<Exchange>, nextDayOfBod: int -> int, n: nat, i: nat)
    requires i < n <= |xs|
    ensures SentRequests(config, apikey, xs, nextDayOfBod, n)[i] == ShapedRequest(config, apikey, xs[i].token, nextDayOfBod(xs[i].now))
  {
    if i < n - 1 {
      SentRequestAt(config, apikey, xs, nextDayOfBod, n - 1, i);
    }
  }

  /** Where the attempts stop, CallResult is read off the last attempt. */
  lemma CallResultAt(config: EtlConfig, xs: seq<Exchange>, k: nat)
    requires k < MaxAttempts <= |xs|
    requires forall j :: 0 <= j < k ==> Retried(xs[j])
    requires !Retried(xs[k]) || k == MaxAttempts - 1
    ensures Attempts(xs) == k + 1
    ensures ErrorOf(xs[k]).None? ==> CallResult(config, xs) == Success(ApiCallSuccess(BodyAfter(xs, k + 1), config))
    ensures ErrorOf(xs[k]).Some? ==> CallResult(config, xs) == Failure(ErrorLog(xs, k + 1))
  {
    AttemptsStopAt(xs, k);
  }

  /** DelayType: the wait in milliseconds after failed attempt n (counted from 0). */
  function Delay(backOff: nat -> nat, n: nat): (d: nat)
    ensures d >= OneSecondMs + backOff(n)
  {
    backOff(n) + BackoffStepMs * (n * 16 / 10) + OneSecondMs
  }

  /** The waits before attempts 2 .. k + 1. */
  function Waits(backOff: nat -> nat, k: nat): (w: seq<nat>)
    ensures |w| == k
  {
    if k == 0 then [] else Waits(backOff, k - 1) + [Delay(backOff, k - 1)]
  }

  /** The linear part of the delay is 750ms times floor(1.6 n). */
  lemma DelayLinearPart(backOff: nat -> nat, n: nat)
    ensures var steps := (Delay(backOff, n) - backOff(n) - OneSecondMs) / BackoffStepMs;
      && (Delay(backOff, n) - backOff(n) - OneSecondMs) % BackoffStepMs == 0
      && 10 * steps <= 16 * n < 10 * steps + 10
  {
  }

  /** The added term never decreases from one attempt to a later one. */
  lemma DelayLinearPartMonotone(backOff: nat -> nat, n: nat, m: nat)
    requires n <= m
    ensures Delay(backOff, n) - backOff(n) <= Delay(backOff, m) - backOff(m)
  {
    assert n * 16 / 10 <= m * 16 / 10;
  }

  // ---------------------------------------------------------------------------
  // Properties of a whole call

  /** A 401 on the first attempt ends the call at once with UNAUTHORIZED. */
  lemma UnauthorizedIsFinal(config: EtlConfig, xs: seq<Exchange>)
    requires MaxAttempts <= |xs|
    requires xs[0].status == 401
    ensures Attempts(xs) == 1
    ensures CallResult(config, xs) == Failure([Unauthorized])
    ensures |AuditTrail(config, xs, 1)| == if xs[0].auditStored then 1 else 0
  {
    AttemptsStopAt(xs, 0);
    assert ErrorLog(xs, 1) == [Unauthorized];
  }

  /** Server errors followed by a clean response: the call succeeds on attempt k + 1. */
  lemma RetriesUntilSuccess(config: EtlConfig, xs: seq<Exchange>, k: nat)
    requires k < MaxAttempts <= |xs|
    requires forall i :: 0 <= i < k ==> xs[i].status == 429 || 500 <= xs[i].status
    requires xs[k].status < 400 && xs[k].decodeOk
    ensures Attempts(xs) == k + 1
    ensures CallResult(config, xs) == Success(ApiCallSuccess(BodyAfter(xs, k + 1), config))
  {
    forall j | 0 <= j < k ensures Retried(xs[j]) {
      RetriedStatuses(xs[j]);
    }
    AttemptsStopAt(xs, k);
  }

  /** The [429, 429, 200] scenario: three attempts, success, three audit records. */
  lemma ThreeAttemptScenario(config: EtlConfig, xs: seq<Exchange>)
    requires MaxAttempts <= |xs|
    requires xs[0].status == 429 && xs[1].status == 429
    requires xs[2].status == 200 && xs[2].decodeOk
    requires xs[0].auditStored && xs[1].auditStored && xs[2].auditStored
    ensures Attempts(xs) == 3
    ensures CallResult(config, xs).Success?
    ensures |AuditTrail(config, xs, 3)| == 3
  {
    RetriesUntilSuccess(config, xs, 2);
    AuditOnePerAttempt(config, xs, 3);
  }

  /** Ten server errors in a row exhaust the attempts: the call fails with ten SERVER_ERRORs. */
  lemma ExhaustsAfterMaxAttempts(config: EtlConfig, xs: seq<Exchange>)
    requires MaxAttempts <= |xs|
    requires forall i :: 0 <= i < MaxAttempts ==> xs[i].status == 429 || 500 <= xs[i].status
    ensures Attempts(xs) == MaxAttempts
    ensures CallResult(config, xs) == Failure(seq(MaxAttempts, _ => ServerError))
  {
    forall j | 0 <= j < MaxAttempts ensures Retried(xs[j]) {
      RetriedStatuses(xs[j]);
    }
    AttemptsStopAt(xs, MaxAttempts - 1);
    var log := ErrorLog(xs, MaxAttempts);
    assert forall i :: 0 <= i < MaxAttempts ==> log[i] == ServerError;
    assert log == seq(MaxAttempts, _ => ServerError);
  }

  /** A failed call returns one error per attempt; every error but the last is
      SERVER_ERROR, and the last is not SERVER_ERROR unless all ten attempts were made.
      A call succeeds exactly when its last attempt got a status below 400 and decoded. */
  lemma CallOutcomeShape(config: EtlConfig, xs: seq<Exchange>)
    requires MaxAttempts <= |xs|
    ensures var n := Attempts(xs);
      && (CallResult(config, xs).Success? <==> xs[n - 1].status < 400 && xs[n - 1].decodeOk)
      && (CallResult(config, xs).Failure? ==>
            var log := CallResult(config, xs).error;
            && |log| == n
            && (forall i :: 0 <= i < n - 1 ==> log[i] == ServerError)
            && (n < MaxAttempts ==> log[n - 1] != ServerError))
  {
  }

  /** Every attempt whose audit write is stored leaves exactly one record, made
      after the decode and carrying the attempt's status. */
  lemma {:induction false} AuditOnePerAttempt(config: EtlConfig, xs: seq<Exchange>, n: nat)
    requires n <= |xs|
    requires forall i :: 0 <= i < n ==> xs[i].auditStored
    ensures |AuditTrail(config, xs, n)| == n
    ensures forall i :: 0 <= i < n ==>
      AuditTrail(config, xs, n)[i] == AuditRecord(config, BodyAfter(xs, i + 1), xs[i].status, EndpointFor(config))
  {
    if n > 0 {
      AuditOnePerAttempt(config, xs, n - 1);
    }
  }

  /** The audit trail never holds more records than attempts were made. */
  lemma {:induction false} AuditAtMostOnePerAttempt(config: EtlConfig, xs: seq<Exchange>, n: nat)
    requires n <= |xs|
    ensures |AuditTrail(config, xs, n)| <= n
  {
    if n > 0 {
      AuditAtMostOnePerAttempt(config, xs, n - 1);
    }
  }

  /** The body map is shared by all attempts: keys decoded by an earlier, failed
      attempt are still in the body that a later success returns. */
  lemma {:induction false} BodyKeepsEarlierEntries(xs: seq<Exchange>, i: nat, n: nat)
    requires i < n <= |xs|
    ensures xs[i].entries.Keys <= BodyAfter(xs, n).Keys
  {
    if i < n - 1 {
      BodyKeepsEarlierEntries(xs, i, n - 1);
    }
  }

  // ---------------------------------------------------------------------------
  // Imperative model

  /** url.Values: the query under construction. */
  class UrlValues {
    var entries: Params

    constructor ()
      ensures entries == map[]
    {
      entries := map[];
    }

    method Add(key: string, value: string)
      modifies this
      ensures entries == AddParam(old(entries), key, value)
    {
      entries := AddParam(entries, key, value);
    }
  }

  /** http.Request: endpoint, headers and the encoded query. */
  class HttpRequest {
    const endpoint: Endpoint
    var header: Params
    var rawQuery: Params

    constructor (endpoint: Endpoint)
      ensures this.endpoint == endpoint && header == map[] && rawQuery == map[]
    {
      this.endpoint := endpoint;
      header := map[];
      rawQuery := map[];
    }

    function Sent(): SentRequest
      reads this
    {
      SentRequest(endpoint, header, rawQuery)
    }
  }

  /** tdapiconfig: the API key and the audit collection (ApiCalls). */
  class ApiService {
    const apikey: string
    var apiCalls: seq<AuditRecord>

    constructor (apikey: string)
      ensures this.apikey == apikey && apiCalls == []
    {
      this.apikey := apikey;
      apiCalls := [];
    }

    method AddAuth(req: HttpRequest, token: string)
      modifies req
      ensures req.header == AddParam(old(req.header), "Authorization", "Bearer " + token)
      ensures req.rawQuery == old(req.rawQuery)
    {
      req.header := AddParam(req.header, "Authorization", "Bearer " + token);
    }

    method AddApiKey(query: UrlValues)
      modifies query
      ensures query.entries == AddParam(old(query.entries), "apikey", apikey)
    {
      query.Add("apikey", apikey);
    }

    method AddFetchPriceHistoryQuery(query: UrlValues, p: PriceHistoryQuery)
      modifies query
      ensures query.entries == PriceHistoryParams(old(query.entries), p)
    {
      query.Add("periodType", p.periodType);
      query.Add("frequencyType", p.frequencyType);
      query.Add("frequency", p.frequency);
      query.Add("startDate", p.startDate);
      query.Add("endDate", p.endDate);
      query.Add("needExtendedHoursData", p.needExtendedHoursData);
    }

    /** InsertResponse: log one exchange; stored says whether ApiCalls.Cache succeeded. */
    method InsertResponse(config: EtlConfig, status: int, path: Endpoint, body: map<string, Json>, stored: bool)
      returns (ok: bool)
      modifies this
      ensures ok == stored
      ensures apiCalls == old(apiCalls) + if stored then [AuditRecord(config, body, status, path)] else []
    {
      if stored {
        apiCalls := apiCalls + [AuditRecord(config, body, status, path)];
      }
      ok := stored;
    }

    /** The request-building half of one attempt: endpoint by kind, bearer
        header, API key, then the query values of the kind. */
    method ShapeRequest(config: EtlConfig, token: string, now: int, nextDayOfBod: int -> int)
      returns (req: HttpRequest)
      ensures fresh(req)
      ensures req.Sent() == ShapedRequest(config, apikey, token, nextDayOfBod(now))
    {
      match config.work {
        case Macros =>
          req := new HttpRequest(InstrumentsUrl);
        case Medium | Short | Signals =>
          req := new HttpRequest(PriceHistoryUrl(config.symbol));
      }
      var query := new UrlValues();
      AddAuth(req, token);
      AddApiKey(query);

      match config.work {
        case Macros =>
          query.Add("projection", "fundamental");
          query.Add("symbol", config.symbol);
        case Medium =>
          var endDate := nextDayOfBod(now);
          var startDate := endDate - 15 * SecondsPerDay;
          AddFetchPriceHistoryQuery(query, PriceHistoryQuery("day", "minute", "30",
            StringFormatDate(startDate), StringFormatDate(endDate), "true"));
        case Short | Signals =>
          var endDate := nextDayOfBod(now);
          var startDate := endDate - 14 * SecondsPerHour;
          AddFetchPriceHistoryQuery(query, PriceHistoryQuery("day", "minute", "15",
            StringFormatDate(startDate), StringFormatDate(endDate), "true"));
      }
      req.rawQuery := query.entries;
    }

    /** One attempt: the function retry.Do runs.  The body map is shared between
        attempts, so it is passed in and handed back. */
    method Attempt(config: EtlConfig, x: Exchange, nextDayOfBod: int -> int, body: map<string, Json>)
      returns (err: Option<CallError>, newBody: map<string, Json>, sent: SentRequest)
      modifies this
      ensures sent == ShapedRequest(config, apikey, x.token, nextDayOfBod(x.now))
      ensures newBody == body + x.entries
      ensures err == ErrorOf(x)
      ensures apiCalls == old(apiCalls) + AuditEntry(config, x, newBody)
    {
      var req := ShapeRequest(config, x.token, x.now, nextDayOfBod);
      sent := req.Sent();

      newBody := body + x.entries;
      var ignored := InsertResponse(config, x.status, req.endpoint, newBody, x.auditStored);

      if 400 <= x.status {
        if x.status == 401 {
          return Some(Unauthorized), newBody, sent;
        }
        if x.status == 429 {
          return Some(ServerError), newBody, sent;
        }
        if 500 <= x.status {
          return Some(ServerError), newBody, sent;
        }
        return Some(StatusFailed(x.status)), newBody, sent;
      }
      if !x.decodeOk {
        return Some(DecodeFailed), newBody, sent;
      }
      err := None;
    }

    /** Call: run attempts under the retry policy.  Returns the result, the
        requests sent (one per attempt) and the waits between attempts, in ms. */
    method Call(config: EtlConfig, xs: seq<Exchange>, nextDayOfBod: int -> int, backOff: nat -> nat)
      returns (result: Result<ApiCallSuccess, seq<CallError>>, sent: seq<SentRequest>, waits: seq<nat>)
      requires MaxAttempts <= |xs|
      modifies this
      ensures sent == SentRequests(config, apikey, xs, nextDayOfBod, Attempts(xs))
      ensures waits == Waits(backOff, Attempts(xs) - 1)
      ensures apiCalls == old(apiCalls) + AuditTrail(config, xs, Attempts(xs))
      ensures result == CallResult(config, xs)
    {
      var n: nat := 0;
      var body: map<string, Json> := map[];
      var errors: seq<CallError> := [];
      sent, waits := [], [];
      while true
        invariant n < MaxAttempts
        invariant forall j :: 0 <= j < n ==> Retried(xs[j])
        invariant body == BodyAfter(xs, n)
        invariant errors == ErrorLog(xs, n)
        invariant sent == SentRequests(config, apikey, xs, nextDayOfBod, n)
        invariant waits == Waits(backOff, n)
        invariant apiCalls == old(apiCalls) + AuditTrail(config, xs, n)
        decreases MaxAttempts - n
      {
        var err, req;
        err, body, req := Attempt(config, xs[n], nextDayOfBod, body);
        sent := sent + [req];
        assert apiCalls == old(apiCalls) + AuditTrail(config, xs, n + 1);
        if err.None? {
          CallResultAt(config, xs, n);
          return Success(ApiCallSuccess(body, config)), sent, waits;
        }
        assert forall j :: 0 <= j < n + 1 ==> ErrorOf(xs[j]).Some?;
        assert ErrorLog(xs, n + 1) == ErrorLog(xs, n) + [err.value];
        errors := errors + [err.value];
        if !RetryIf(err.value) || n == MaxAttempts - 1 {
          CallResultAt(config, xs, n);
          return Failure(errors), sent, waits;
        }
        waits := waits + [Delay(backOff, n)];
        n := n + 1;
      }
    }
  }
}
