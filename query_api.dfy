/**
  The read-side lambda (lambdas/api/api-index.ts). A `GET /timeSeries-data`
  request with a shared-secret header and a millisecond range is answered
  from the time-series store, queried with bounds relative to the clock,
  and, when that answer does not reach the end of the range, also from the
  key-value store of future samples. The API key is cached in the handler
  object after its first successful lookup.

  Store queries and the parameter store are parameters; every request
  returns the calls it issued as a log.
 */
module QueryApi {
  import opened Common
  import opened Numbers

  const MillisPerHour: nat := 1000 * 60 * 60
  const TimeSeriesPath: string := "/timeSeries-data"

  /** Names of the variables the request handler needs, in the order it checks them. */
  const ApiVariables: seq<string> := ["TS_DB_NAME", "TS_TABLE_NAME", "FUTURE_TABLE"]

  // ---------------------------------------------------------------------
  // Relative time bounds

  /** A bound of the time-series query language: `ago(Nh)` or `now()`. */
  datatype RelativeTime = HoursAgo(hours: nat) | Now

  /** `getDateRange`: a millisecond timestamp before the clock reading
      becomes a whole number of hours ago, the nearest one (half an hour
      rounding up); any other timestamp, the reading itself included,
      becomes `now()`. */
  function GetDateRange(dateMs: int, nowMs: int): (r: RelativeTime)
    ensures r.HoursAgo? <==> dateMs < nowMs
    ensures r.HoursAgo? ==>
      r.hours * MillisPerHour - MillisPerHour / 2 <= nowMs - dateMs < r.hours * MillisPerHour + MillisPerHour / 2
  {
    if dateMs < nowMs then HoursAgo(RoundDiv(nowMs - dateMs, MillisPerHour)) else Now
  }

  /** The text of a bound as it appears in the query. */
  function RelativeTimeText(r: RelativeTime): string {
    match r
    case HoursAgo(n) => "ago(" + NatToString(n) + "h)"
    case Now => "now()"
  }

  /** Distinct bounds are written as distinct query text. */
  lemma RelativeTimeTextInjective(a: RelativeTime, b: RelativeTime)
    ensures RelativeTimeText(a) == RelativeTimeText(b) ==> a == b
  {
    var ta, tb := RelativeTimeText(a), RelativeTimeText(b);
    if a.HoursAgo? && b.HoursAgo? {
      var da, db := NatToString(a.hours), NatToString(b.hours);
      assert ta[4..|ta| - 2] == da;
      assert tb[4..|tb| - 2] == db;
      if ta == tb {
        NatToStringInjective(a.hours, b.hours);
      }
    } else if a.HoursAgo? || b.HoursAgo? {
      assert (ta[0] == 'a') != (tb[0] == 'a');
    }
  }

  // ---------------------------------------------------------------------
  // Requests, queries and rows

  datatype QueryParams = QueryParams(startDate: Option<int>, endDate: Option<int>, identifier: Option<string>)

  /** The parts of an API Gateway event the handler reads; `query` is absent
      when the request has no query string at all. */
  datatype ApiEvent = ApiEvent(httpMethod: string, path: string, token: Option<string>, query: Option<QueryParams>)

  /** The time-series query: identifier and bounds, rows newest first. */
  datatype HistoricalQuery = HistoricalQuery(database: string, table: string, identifier: string,
                                             from: RelativeTime, to: RelativeTime)

  /** The key-value range query: partition key and sort-key bounds in seconds. */
  datatype FutureQuery = FutureQuery(tableName: string, identifier: string, begin: int, end: int)

  /** A time-series row: identifier and measure scalars, each possibly
      absent, and the millisecond instant its time scalar denotes. */
  datatype QueryRow = QueryRow(identifier: Option<string>, cpu: Option<string>, timeMs: int)

  /** A future-table item; `time` is in epoch seconds. */
  datatype FutureStoreItem = FutureStoreItem(identifier: string, time: int, value: string)

  datatype ReturnRow = ReturnRow(identifier: Option<string>, cpu: string, time: int)

  datatype QueryResult = QueryResult(historicalRows: seq<ReturnRow>, futureRows: seq<ReturnRow>)

  datatype Rejection =
    | TokenMismatch
    | MissingVariable(name: string)
    | NotTimeSeriesGet
    | NoQueryString
    | MissingParameters
    | StoreFailure

  datatype ApiResponse = Ok(body: QueryResult) | BadRequest(reason: Rejection)

  function StatusCode(response: ApiResponse): int {
    if response.Ok? then 200 else 400
  }

  datatype ApiCall =
    | ParameterRead(name: string)
    | TimestreamQuery(historical: HistoricalQuery)
    | DynamoQuery(future: FutureQuery)

  /** The response to a request and the store queries issued for it. */
  datatype Served = Served(response: ApiResponse, calls: seq<ApiCall>)

  /** The `historicalRows` map: one row per query row, in order, the measure
      defaulting to "0". */
  function HistoricalRows(rows: seq<QueryRow>): (r: seq<ReturnRow>)
    ensures |r| == |rows|
    ensures forall i :: 0 <= i < |rows| ==>
      && r[i].identifier == rows[i].identifier
      && r[i].time == rows[i].timeMs
      && (rows[i].cpu.Some? ==> r[i].cpu == rows[i].cpu.value)
      && (rows[i].cpu.None? ==> r[i].cpu == "0")
  {
    seq(|rows|, i requires 0 <= i < |rows| => ReturnRow(rows[i].identifier, rows[i].cpu.GetOr("0"), rows[i].timeMs))
  }

  function FutureRow(item: FutureStoreItem): ReturnRow {
    ReturnRow(Some(item.identifier), item.value, item.time * 1000)
  }

  function FutureRows(items: seq<FutureStoreItem>): seq<ReturnRow> {
    seq(|items|, i requires 0 <= i < |items| => FutureRow(items[i]))
  }

  /** The heuristic for data the time-series store does not hold yet: no
      rows at all, or a newest row earlier than the end of the range. */
  predicate QueriesFutureStore(historicalRows: seq<ReturnRow>, endDate: int) {
    |historicalRows| == 0 || historicalRows[0].time < endDate
  }

  // ---------------------------------------------------------------------
  // The request

  /** Everything the handler checks before it queries a store. */
  predicate ValidRequest(apiKey: string, event: ApiEvent, env: Env) {
    && event.token == Some(apiKey)
    && FirstMissing(env, ApiVariables).None?
    && event.httpMethod == "GET" && event.path == TimeSeriesPath
    && event.query.Some?
    && event.query.value.startDate.Some? && event.query.value.endDate.Some?
    && event.query.value.identifier.Some? && event.query.value.identifier.value != ""
  }

  function HistoricalQueryFor(env: Env, identifier: string, startDate: int, endDate: int,
                              nowStartMs: int, nowEndMs: int): HistoricalQuery
  {
    HistoricalQuery(Value(env, "TS_DB_NAME"), Value(env, "TS_TABLE_NAME"), identifier,
                    GetDateRange(startDate, nowStartMs), GetDateRange(endDate, nowEndMs))
  }

  function FutureQueryFor(env: Env, identifier: string, startDate: int, endDate: int): FutureQuery {
    FutureQuery(Value(env, "FUTURE_TABLE"), identifier, RoundDiv(startDate, 1000), RoundDiv(endDate, 1000))
  }

  /** The handler's `try` block, for a cached key `apiKey`: every check, in
      the source's order, before any store query; then the time-series query,
      then the key-value query when the heuristic asks for it. Anything thrown
      inside the block, a store failure included, becomes a 400 response.
      `nowStartMs` and `nowEndMs` are the clock readings taken for the two
      bounds. */
  function Respond(apiKey: string, event: ApiEvent, env: Env, nowStartMs: int, nowEndMs: int,
                   timestream: HistoricalQuery -> Option<seq<QueryRow>>,
                   dynamo: FutureQuery -> Option<seq<FutureStoreItem>>): Served
  {
    if event.token != Some(apiKey) then Served(BadRequest(TokenMismatch), [])
    else if FirstMissing(env, ApiVariables).Some? then
      Served(BadRequest(MissingVariable(ApiVariables[FirstMissing(env, ApiVariables).value])), [])
    else if event.httpMethod != "GET" || event.path != TimeSeriesPath then Served(BadRequest(NotTimeSeriesGet), [])
    else if event.query.None? then Served(BadRequest(NoQueryString), [])
    else
      var params := event.query.value;
      if params.startDate.None? || params.endDate.None? || params.identifier.None? || params.identifier.value == "" then
        Served(BadRequest(MissingParameters), [])
      else
        var startDate, endDate, identifier := params.startDate.value, params.endDate.value, params.identifier.value;
        var historical := HistoricalQueryFor(env, identifier, startDate, endDate, nowStartMs, nowEndMs);
        match timestream(historical)
        case None => Served(BadRequest(StoreFailure), [TimestreamQuery(historical)])
        case Some(rows) =>
          var historicalRows := HistoricalRows(rows);
          if QueriesFutureStore(historicalRows, endDate) then
            var future := FutureQueryFor(env, identifier, startDate, endDate);
            match dynamo(future)
            case None => Served(BadRequest(StoreFailure), [TimestreamQuery(historical), DynamoQuery(future)])
            case Some(items) =>
              Served(Ok(QueryResult(historicalRows, FutureRows(items))), [TimestreamQuery(historical), DynamoQuery(future)])
          else
            Served(Ok(QueryResult(historicalRows, [])), [TimestreamQuery(historical)])
  }

  /** Collects the future rows as the `result.Items` callback pushes them. */
  method CollectFutureRows(items: seq<FutureStoreItem>) returns (futureRows: seq<ReturnRow>)
    ensures futureRows == FutureRows(items)
    ensures |futureRows| == |items|
    ensures forall i :: 0 <= i < |items| ==>
      futureRows[i] == ReturnRow(Some(items[i].identifier), items[i].value, items[i].time * 1000)
  {
    futureRows := [];
    var i := 0;
    while i < |items|
      invariant 0 <= i <= |items|
      invariant futureRows == FutureRows(items[..i])
    {
      futureRows := futureRows + [FutureRow(items[i])];
      i := i + 1;
    }
    assert items[..i] == items;
  }

  /** The `try` block step by step. */
  method Serve(apiKey: string, event: ApiEvent, env: Env, nowStartMs: int, nowEndMs: int,
               timestream: HistoricalQuery -> Option<seq<QueryRow>>,
               dynamo: FutureQuery -> Option<seq<FutureStoreItem>>)
    returns (served: Served)
    ensures served == Respond(apiKey, event, env, nowStartMs, nowEndMs, timestream, dynamo)
  {
    if event.token != Some(apiKey) {
      return Served(BadRequest(TokenMismatch), []);
    }
    var missing := FirstMissing(env, ApiVariables);
    if missing.Some? {
      return Served(BadRequest(MissingVariable(ApiVariables[missing.value])), []);
    }
    if event.httpMethod != "GET" || event.path != TimeSeriesPath {
      return Served(BadRequest(NotTimeSeriesGet), []);
    }
    if event.query.None? {
      return Served(BadRequest(NoQueryString), []);
    }
    var params := event.query.value;
    if params.startDate.None? || params.endDate.None? || params.identifier.None? || params.identifier.value == "" {
      return Served(BadRequest(MissingParameters), []);
    }
    var startDate, endDate, identifier := params.startDate.value, params.endDate.value, params.identifier.value;
    var historical := HistoricalQuery(Value(env, "TS_DB_NAME"), Value(env, "TS_TABLE_NAME"), identifier,
                                      GetDateRange(startDate, nowStartMs), GetDateRange(endDate, nowEndMs));
    var calls := [TimestreamQuery(historical)];
    var results := timestream(historical);
    if results.None? {
      return Served(BadRequest(StoreFailure), calls);
    }
    var historicalRows := HistoricalRows(results.value);
    var futureRows: seq<ReturnRow> := [];
    if |historicalRows| == 0 || historicalRows[0].time < endDate {
      var future := FutureQuery(Value(env, "FUTURE_TABLE"), identifier, RoundDiv(startDate, 1000), RoundDiv(endDate, 1000));
      calls := calls + [DynamoQuery(future)];
      var result := dynamo(future);
      if result.None? {
        return Served(BadRequest(StoreFailure), calls);
      }
      futureRows := CollectFutureRows(result.value);
    }
    return Served(Ok(QueryResult(historicalRows, futureRows)), calls);
  }

  // ---------------------------------------------------------------------
  // Properties of a request

  /** A store is queried exactly when the request passes every check: a
      token mismatch, a missing variable, another method or path, or a
      missing parameter is answered 400 without any store query; a valid
      request always starts with the time-series query for its identifier. */
  lemma StoreQueriedOnlyForValidRequests(apiKey: string, event: ApiEvent, env: Env, nowStartMs: int, nowEndMs: int,
                                         timestream: HistoricalQuery -> Option<seq<QueryRow>>,
                                         dynamo: FutureQuery -> Option<seq<FutureStoreItem>>)
    ensures var served := Respond(apiKey, event, env, nowStartMs, nowEndMs, timestream, dynamo);
      && (|served.calls| > 0 <==> ValidRequest(apiKey, event, env))
      && (!ValidRequest(apiKey, event, env) ==> StatusCode(served.response) == 400)
      && (ValidRequest(apiKey, event, env) ==>
            var p := event.query.value;
            served.calls[0] == TimestreamQuery(HistoricalQueryFor(env, p.identifier.value, p.startDate.value,
                                                                  p.endDate.value, nowStartMs, nowEndMs)))
  {
  }

  /** For a valid request whose time-series query succeeds, the key-value
      store is queried exactly when the heuristic asks for it, with the
      requested identifier and the range in rounded seconds; when it is not
      queried the future rows are empty. */
  lemma FutureStoreQueriedIff(apiKey: string, event: ApiEvent, env: Env, nowStartMs: int, nowEndMs: int,
                              timestream: HistoricalQuery -> Option<seq<QueryRow>>,
                              dynamo: FutureQuery -> Option<seq<FutureStoreItem>>)
    requires ValidRequest(apiKey, event, env)
    requires var p := event.query.value;
      timestream(HistoricalQueryFor(env, p.identifier.value, p.startDate.value, p.endDate.value, nowStartMs, nowEndMs)).Some?
    ensures var p := event.query.value;
      var rows := timestream(HistoricalQueryFor(env, p.identifier.value, p.startDate.value, p.endDate.value, nowStartMs, nowEndMs)).value;
      var served := Respond(apiKey, event, env, nowStartMs, nowEndMs, timestream, dynamo);
      && ((exists i :: 0 <= i < |served.calls| && served.calls[i].DynamoQuery?)
            <==> |rows| == 0 || rows[0].timeMs < p.endDate.value)
      && (forall i :: 0 <= i < |served.calls| && served.calls[i].DynamoQuery? ==>
            served.calls[i].future == FutureQuery(Value(env, "FUTURE_TABLE"), p.identifier.value,
                                                  RoundDiv(p.startDate.value, 1000), RoundDiv(p.endDate.value, 1000)))
      && (served.response.Ok? && !(|rows| == 0 || rows[0].timeMs < p.endDate.value) ==>
            served.response.body.futureRows == [])
  {
    var p := event.query.value;
    var historical := HistoricalQueryFor(env, p.identifier.value, p.startDate.value, p.endDate.value, nowStartMs, nowEndMs);
    var rows := timestream(historical).value;
    var historicalRows := HistoricalRows(rows);
    var served := Respond(apiKey, event, env, nowStartMs, nowEndMs, timestream, dynamo);
    assert |historicalRows| == 0 || historicalRows[0].time == rows[0].timeMs;
    if QueriesFutureStore(historicalRows, p.endDate.value) {
      var future := FutureQueryFor(env, p.identifier.value, p.startDate.value, p.endDate.value);
      assert served.calls == [TimestreamQuery(historical), DynamoQuery(future)];
      assert served.calls[1].DynamoQuery?;
    } else {
      assert served.calls == [TimestreamQuery(historical)];
    }
  }

  /** When the key-value store honours the sort-key bounds, every future row's
      millisecond time lies within half a second of the requested range. */
  lemma FutureRowsWithinRange(startDate: int, endDate: int, items: seq<FutureStoreItem>)
    requires forall i :: 0 <= i < |items| ==>
      RoundDiv(startDate, 1000) <= items[i].time <= RoundDiv(endDate, 1000)
    ensures forall i :: 0 <= i < |items| ==>
      startDate - 500 < FutureRows(items)[i].time <= endDate + 500
  {
    forall i | 0 <= i < |items|
      ensures startDate - 500 < FutureRows(items)[i].time <= endDate + 500
    {
      MulMonotone(RoundDiv(startDate, 1000), items[i].time, 1000);
      MulMonotone(items[i].time, RoundDiv(endDate, 1000), 1000);
    }
  }

  // ---------------------------------------------------------------------
  // The handler and its key cache

  /** How an invocation ends: the key could not be set up (thrown outside
      the `try` block, so not a 400 response), or a response. */
  datatype Invocation = KeyNotSetUp | Returned(response: ApiResponse)

  /** The lambda's module state: the API key, empty until a lookup finds one. */
  class ApiHandler {
    var apiKey: string

    constructor ()
      ensures apiKey == ""
    {
      apiKey := "";
    }

    /** `handler`: looks the key up only while none is cached, fails when the
        lookup finds none, and otherwise answers the request with the key. */
    method Handle(event: ApiEvent, env: Env, parameterStore: string -> Option<string>,
                  nowStartMs: int, nowEndMs: int,
                  timestream: HistoricalQuery -> Option<seq<QueryRow>>,
                  dynamo: FutureQuery -> Option<seq<FutureStoreItem>>)
      returns (invocation: Invocation, calls: seq<ApiCall>)
      modifies this
      ensures old(apiKey) != "" ==> apiKey == old(apiKey)
      ensures old(apiKey) == "" ==> apiKey == LookupApiKey(env, "API_SSM_ID", parameterStore).key
      ensures var keyCalls :=
          if old(apiKey) == "" && LookupApiKey(env, "API_SSM_ID", parameterStore).parameterRead.Some?
          then [ParameterRead(LookupApiKey(env, "API_SSM_ID", parameterStore).parameterRead.value)]
          else [];
        var served := Respond(apiKey, event, env, nowStartMs, nowEndMs, timestream, dynamo);
        && (apiKey == "" ==> invocation == KeyNotSetUp && calls == keyCalls)
        && (apiKey != "" ==> invocation == Returned(served.response) && calls == keyCalls + served.calls)
    {
      calls := [];
      if apiKey == "" {
        var lookup := LookupApiKey(env, "API_SSM_ID", parameterStore);
        if lookup.parameterRead.Some? {
          calls := [ParameterRead(lookup.parameterRead.value)];
        }
        apiKey := lookup.key;
        if apiKey == "" {
          return KeyNotSetUp, calls;
        }
      }
      var served := Serve(apiKey, event, env, nowStartMs, nowEndMs, timestream, dynamo);
      invocation := Returned(served.response);
      calls := calls + served.calls;
    }
  }
}
