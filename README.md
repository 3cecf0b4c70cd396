# Time-series cache lambdas, modelled in Dafny

The system keeps time-series data for a set of identifiers in two stores. A
time-series store holds samples from the past. A key-value table holds samples
dated in the future, each with a seven-day expiry. Three lambdas make up its
runtime:

- **Dispatch** (`lambdas/queue/queue-index.ts`) scans the identifier table. It
  collects the distinct identifiers and sends one message batch to a queue,
  two identifiers per message.
- **Ingestion** (`lambdas/timeseries/timeseries-index.ts`) handles those
  messages. For each message it fetches every identifier's samples and
  classifies them against one clock reading. Past samples go to the time-series
  store, 100 records per write request. Future samples go to the key-value
  table, 25 items per batch write.
- **Query API** (`lambdas/api/api-index.ts`) answers `GET /timeSeries-data`. It
  checks a shared-secret token and the query parameters. It then queries the
  time-series store with bounds relative to the clock. When that answer does
  not reach the end of the requested range, it also queries the key-value table.

Every store, the parameter store and the data source are function parameters.
Each handler returns its outcome plus the log of the calls it issued, in order.
Clock readings are parameters too.

Files and modules:

- `common.dfy` (`Common`): optional values, the environment with JavaScript
  truthiness, the ordered configuration checks, and the API-key lookup.
- `numbers.dfy` (`Numbers`): `Math.round` of a quotient, the ceiling quotient,
  and decimal text of integers with its parser.
- `chunking.dfy` (`Chunking`): the pieces produced by a
  `while (arr.length) splice(0, n)` drain. `JsArray` is the array being drained.
- `ingestion.dfy` (`Ingestion`), `query_api.dfy` (`QueryApi`) and
  `dispatch.dfy` (`Dispatch`): one module per lambda.

Points where the code behaves differently from what a reader might expect:

- The ingestion lambda looks the API key up on every invocation. It caches
  nothing.
- In the query API, a missing key is thrown outside the `try` block, so it is
  not a 400 response. A failing store query is thrown inside the `try` block,
  so it becomes a 400 response.
- The key-value writers await `batchWrite(...).promise()` (ingestion) and
  `scan(...).promise()` (dispatch) with no rejection handler. A failed request
  therefore ends the invocation: later chunks and later messages are not
  processed, and dispatch sends nothing. By contrast, the time-series writer
  handles its failures with `.then(ok, err)`, logs them and goes on to the
  next chunk.

## Model

| member | source | states |
|---|---|---|
| Common.FirstMissing | lambdas/timeseries/timeseries-index.ts:183-194 | Gives the index of the first variable that is unset or empty, with every earlier variable set. Gives none exactly when all variables are set. |
| Common.LookupApiKeyReads | lambdas/timeseries/timeseries-index.ts:87-99 | The parameter store is read exactly when `API_KEY` is unusable and the entry-name variable is set. A usable `API_KEY` is returned unchanged, with no read. |
| Numbers.RoundDiv | lambdas/api/api-index.ts:15 | `Math.round(x / d)` is the integer r with r·d − d/2 ≤ x < r·d + d/2, so a tie rounds up. |
| Numbers.RoundDivShift | lambdas/timeseries/timeseries-index.ts:156-158 | Adding k whole divisors before rounding adds exactly k to the result. |
| Numbers.IntToStringRoundTrip | lambdas/timeseries/timeseries-index.ts:117 | The decimal text of an integer parses back to that integer. |
| Numbers.IntToStringInjective | lambdas/timeseries/timeseries-index.ts:117 | Distinct integers have distinct decimal texts. |
| Chunking.Chunks | lambdas/timeseries/timeseries-index.ts:31-35 | Every piece of a drain into pieces of at most n elements holds between 1 and n elements. |
| Chunking.ChunksFlatten | lambdas/timeseries/timeseries-index.ts:31-35 | The pieces, concatenated in order, give back the whole input: nothing is dropped, repeated or reordered. |
| Chunking.ChunksCount | lambdas/timeseries/timeseries-index.ts:60-63 | There are exactly ⌈N/n⌉ pieces. |
| Chunking.ChunksFull | lambdas/timeseries/timeseries-index.ts:31-35 | Every piece but the last holds exactly n elements. |
| Chunking.ChunksLast | lambdas/queue/queue-index.ts:56-61 | The last piece holds N mod n elements, or n when n divides N. |
| Chunking.ChunksAppend | lambdas/queue/queue-index.ts:43-61 | Appending a group of 1..n elements to input that fills whole pieces appends exactly that group as one more piece. |
| Chunking.ChunksSplice | lambdas/timeseries/timeseries-index.ts:60-63 | Splicing the front piece off the remaining array moves exactly the next piece from "to come" to "done". |
| Chunking.JsArray.SpliceFront | lambdas/timeseries/timeseries-index.ts:35 | `splice(0, count)` removes and returns the first `min(count, length)` elements and leaves the rest. |
| Ingestion.ExpiryIsSevenDaysLater | lambdas/timeseries/timeseries-index.ts:156-158 | The expiry is exactly 7·86400 seconds after the rounded second of the date reading. |
| Ingestion.PartitionIsExact | lambdas/timeseries/timeseries-index.ts:162-178 | The past and future sides together hold the input's samples with their multiplicities, so their sizes add up to the input's size. |
| Ingestion.PartitionMembership | lambdas/timeseries/timeseries-index.ts:164-178 | A sample is past exactly when it is an input sample with time < now. It is future exactly when it is an input sample with time ≥ now. |
| Ingestion.PartitionOfConcat | lambdas/timeseries/timeseries-index.ts:210-217 | Classifying concatenated fetches gives the concatenation of each fetch's classification, so input order is kept on each side. |
| Ingestion.MapRecordToTimestream | lambdas/timeseries/timeseries-index.ts:105-120 | The record has the single dimension `identifier` = the sample's identifier, the sample's value as its measure, time unit `SECONDS`, and a time text that parses back to the sample's time. |
| Ingestion.MappedRecordDeterminesSample | lambdas/timeseries/timeseries-index.ts:105-120 | Two samples with the same record agree on identifier, time and value. |
| Ingestion.CategoriseResults | lambdas/timeseries/timeseries-index.ts:155-181 | The outputs are the mapped past samples and the future items, both for the one `now` of the call. Their sizes add up to the input's, and every future item has the call's single expiry. |
| Ingestion.SpoofRecords | lambdas/timeseries/timeseries-index.ts:130-148 | Yields exactly 576 samples. Sample k has the given identifier, time now − 86400 + 300·k, the k-th drawn value, and metadata `Past` exactly when its time < now. |
| Ingestion.SpoofMetadataMatchesClassifier | lambdas/timeseries/timeseries-index.ts:142 | With the same `now`, the classifier's past side holds exactly the stub samples marked `Past`. |
| Ingestion.CheckEnvironmentVariables | lambdas/timeseries/timeseries-index.ts:183-194 | Fails exactly when one of `TS_DB_NAME`, `TS_TABLE_NAME`, `FUTURE_TABLE` is missing, naming the first missing one in that order. Otherwise yields their values. |
| Ingestion.UploadPastRecordsIntoTimestream | lambdas/timeseries/timeseries-index.ts:15-52 | Leaves the array empty. Logs the start marker, then one write request per 100-record chunk, whatever the store answers. |
| Ingestion.TimestreamUploadShape | lambdas/timeseries/timeseries-index.ts:31-51 | Issues ⌈N/100⌉ write requests, each to the configured database and table, each with 1..100 records, all but the last full. The records, in request order, are exactly the input. |
| Ingestion.UploadFutureRecordsIntoDynamo | lambdas/timeseries/timeseries-index.ts:57-82 | Logs one batch write per 25-item chunk up to the first failed write. Succeeds exactly when every chunk is accepted, and then leaves the array empty. The array always equals the input minus the items already requested. |
| Ingestion.DynamoWritesPrefix | lambdas/timeseries/timeseries-index.ts:60-81 | The batch writes cover a non-empty prefix of the chunks, in order, with every write but the last accepted. They stop early only at a failed write. |
| Ingestion.DynamoUploadShape | lambdas/timeseries/timeseries-index.ts:60-81 | Issues at most ⌈N/25⌉ batch writes to the configured table, each with 1..25 items, all but the last full and accepted. When all are accepted there are exactly ⌈N/25⌉, and their items in order are the input. |
| Ingestion.HandleMessage | lambdas/timeseries/timeseries-index.ts:207-228 | One message: a fetch per identifier in order, one classification of the concatenated samples, and each writer run only on a non-empty side. Reports whether the key-value writer finished. |
| Ingestion.Handler | lambdas/timeseries/timeseries-index.ts:196-229 | A configuration failure issues nothing. A missing key issues at most the parameter read. Otherwise the messages are handled in order, up to the end of the first message whose batch write fails, and the invocation fails exactly then. |
| Ingestion.MessagesCallsAfterFailure | lambdas/timeseries/timeseries-index.ts:223-225 | Nothing is issued after the message whose key-value writer fails. |
| Ingestion.MessageWritesPastSamplesOnce | lambdas/timeseries/timeseries-index.ts:210-221 | The records sent to the time-series store for a message are its mapped past samples, each once and in order. |
| Ingestion.MessageWritesFutureSamplesOnce | lambdas/timeseries/timeseries-index.ts:210-225 | When the key-value writer finishes, the items it sent are the message's future samples, each once and in order. |
| Ingestion.MessageSkipsEmptyWriters | lambdas/timeseries/timeseries-index.ts:219-225 | Each writer is started exactly when its side of the classification is non-empty. |
| QueryApi.GetDateRange | lambdas/api/api-index.ts:11-20 | Gives `ago(N h)` exactly when the date is before the clock reading, with N the whole number of hours nearest to the difference (a tie rounds up). Otherwise gives `now()`, including at the reading itself. |
| QueryApi.RelativeTimeTextInjective | lambdas/api/api-index.ts:16-18 | Distinct bounds have distinct query text. |
| QueryApi.HistoricalRows | lambdas/api/api-index.ts:112-119 | Gives one row per query row, in order, keeping identifier and time. The measure is kept when present and is "0" when absent. |
| QueryApi.CollectFutureRows | lambdas/api/api-index.ts:141-147 | Gives one row per returned item, in item order. Each row has the item's identifier and value, and a time of item time · 1000. |
| QueryApi.Serve | lambdas/api/api-index.ts:47-178 | The `try` block gives the response and query log that the checks, in source order, and the two store queries prescribe. |
| QueryApi.StoreQueriedOnlyForValidRequests | lambdas/api/api-index.ts:50-97 | A store is queried exactly when the request passes every check. A token mismatch, a missing variable, another method or path, or a missing parameter gives 400 with no query. A valid request starts with the time-series query for its identifier and bounds. |
| QueryApi.FutureStoreQueriedIff | lambdas/api/api-index.ts:121-136 | After a successful time-series query, the key-value table is queried exactly when the rows are empty or the newest is before `endDate`. That query is keyed by the identifier with bounds round(start/1000) and round(end/1000). When it is not made, the future rows are empty. |
| QueryApi.FutureRowsWithinRange | lambdas/api/api-index.ts:133-145 | Items within the second-rounded bounds become rows within half a second of the requested millisecond range. |
| QueryApi.ApiHandler.constructor | lambdas/api/api-index.ts:36 | The cached key starts empty. |
| QueryApi.ApiHandler.Handle | lambdas/api/api-index.ts:38-47 | The key is looked up, and the parameter store possibly read, only while the cache is empty. A non-empty cache is kept. An empty lookup result throws. Otherwise the response is the `try` block's for the cached key. |
| Dispatch.DedupMembers | lambdas/queue/queue-index.ts:29-31 | The set's iteration order has no repeats and holds exactly the scanned identifiers. |
| Dispatch.DedupOfDistinct | lambdas/queue/queue-index.ts:29-31 | Distinct scanned identifiers are kept all, in scan order. |
| Dispatch.IdentifierSet.Add | lambdas/queue/queue-index.ts:30 | Adding a present identifier changes nothing. Adding a new one appends it. Distinctness is preserved. |
| Dispatch.CollectIdentifiers | lambdas/queue/queue-index.ts:14-34 | Filling the set from the scan gives the identifiers at their first occurrence, with no repeats and none missing. |
| Dispatch.MessageIdInjective | lambdas/queue/queue-index.ts:49 | Within one run, distinct counter values give distinct ids `${message}-${uid}`. |
| Dispatch.EntriesAppend | lambdas/queue/queue-index.ts:45-52 | A full pair of identifiers, or the trailing single one, becomes the next entry, numbered by its position. |
| Dispatch.BuildEntries | lambdas/queue/queue-index.ts:36-61 | The `forEach` with the counter and the trailing push builds exactly the batch of the set's pairs numbered from 0. |
| Dispatch.EntriesShape | lambdas/queue/queue-index.ts:43-61 | There are ⌈N/2⌉ entries, each with 1 or 2 identifiers, all but the last with 2. Their identifier lists, concatenated, give the set order. All ids are distinct. |
| Dispatch.DispatchIdentifiers | lambdas/queue/queue-index.ts:3-76 | A missing `IDENTIFIER_TABLE` or `IDENTIFIER_QUEUE` fails, naming the first missing one, before any scan. A failed scan ends the invocation without a send. Otherwise exactly one batch of the deduplicated identifiers is sent, and the outcome follows the send. |
| Dispatch.DispatchSendsEachIdentifierOnce | lambdas/queue/queue-index.ts:14-61 | Every scanned identifier is sent exactly once, at most two per entry. |

## Left out

- Store and SDK calls are function parameters. The time-series write, key-value batch write and query, scan, queue send and parameter-store read become logged requests, each with the answer the parameter gives. Client settings are not modelled: HTTPS agent, socket limits, timeouts and retries.
- In AWS SDK v2, a request made with both a callback and `.promise()` may be sent twice. The model issues each such request once.
- A failed parameter-store read (a rejected `getParameter`) is not modelled. The parameter store always answers, with or without a value.
- Console logging is not modelled, except the two writers' start messages, which appear in the log as `TimestreamWriterStarted` and `DynamoWriterStarted`.
- JSON is not modelled. Message bodies arrive as sequences of identifiers. The future item's `document` holds the sample itself. Response bodies are datatypes, and error bodies are `Rejection` reasons, not the serialized error.
- The SQL text of the time-series query is a structured `HistoricalQuery`. Only the text of its bounds (`RelativeTimeText`) is modelled.
- ISO-8601 row times are not parsed. A query row carries the millisecond instant its time denotes. Absent or unparsable time scalars are out of scope, and so is `NaN` in the trigger comparison.
- `parseInt` of the query parameters is taken as already done, and an empty string counts as missing. Non-numeric parameters (`NaN`) are not modelled.
- `Math.random()` in the stub data source is the `draw` parameter. `getRecordsFromAPI` is the `fetch` parameter. Its stub body, `spoofRecords`, is modelled by `SpoofRecords` separately and is not tied to `fetch`.
- Clock reads are parameters. `categoriseResults` takes two readings, and each `getDateRange` call takes its own. The calendar step `setDate(getDate() + 7)` is taken as exactly 7·86400 seconds, so daylight-saving shifts are ignored.
- Floating point is not modelled. `Math.round` of a quotient is exact integer rounding, and JavaScript numbers are unbounded integers here.
- The queue's limit of 10 entries per batch, the error for an empty batch, and per-entry failures in the send response are not modelled. The send is accepted or not.
- Scan pagination is not modelled. The scan answers once, with all identifiers or a failure.
- After a thrown error, the platform retries the invocation. That retry, and concurrency across queue-triggered invocations, are not modelled.
- The dispatch source annotates the set as `Set<number>`. The identifiers travel through JSON and are treated as strings throughout.
- The infrastructure code (`cdk/`, `bin/cdk.ts`), the end-to-end test and the `local.ts` invocation shims are not part of this model.
