/**
  The ingestion lambda (lambdas/timeseries/timeseries-index.ts). For each
  dispatch message it fetches the samples of every identifier, splits them
  with one clock reading into past samples, written to the time-series
  store in chunks of 100, and future samples, written to the key-value
  store in chunks of 25 with a seven-day expiry.

  Store calls, the parameter store and the data source are parameters; the
  handler returns the calls it issues as a log.
 */
module Ingestion {
  import opened Common
  import opened Numbers
  import opened Chunking

  /** Records per time-series write request (a limit of that store). */
  const TimestreamWriteLimit: nat := 100
  /** Items per key-value batch write (a limit of that store). */
  const DynamoWriteLimit: nat := 25

  const SecondsPerDay: nat := 60 * 60 * 24
  const ExpiryDays: nat := 7
  /** Spacing of the stub data source's samples: five minutes. */
  const SpoofStep: nat := 60 * 5

  /** A sample from the data source; `time` is in epoch seconds. */
  datatype Sample = Sample(identifier: string, time: int, value: string, metadata: string)

  datatype Dimension = Dimension(name: string, value: string)

  /** A record in the time-series store's write shape. */
  datatype TimestreamRecord = TimestreamRecord(
    dimensions: seq<Dimension>,
    measureName: string,
    measureValue: string,
    measureValueType: string,
    time: string,
    timeUnit: string)

  /** An item of the future-samples table; `document` is the sample the JSON
      document serialises (the serialisation itself is not modelled). */
  datatype DynamoItem = DynamoItem(
    identifier: string,
    time: int,
    value: string,
    metadata: string,
    document: Sample,
    expiry: int)

  /** Epoch seconds of a millisecond clock reading: `Math.round(ms / 1000)`. */
  function Seconds(ms: int): int {
    RoundDiv(ms, 1000)
  }

  /** Expiry of the future items: the date read by `new Date()` moved on by
      seven days, in rounded epoch seconds. */
  function ExpirySeconds(dateMs: int): int {
    RoundDiv(dateMs + ExpiryDays * SecondsPerDay * 1000, 1000)
  }

  /** The expiry is exactly seven days after the second of the date reading. */
  lemma ExpiryIsSevenDaysLater(dateMs: int)
    ensures ExpirySeconds(dateMs) == Seconds(dateMs) + 7 * 86400
  {
    RoundDivShift(dateMs, 1000, 7 * 86400);
  }

  // ---------------------------------------------------------------------
  // Classification

  /** The samples strictly before `now`, in input order. */
  function PastSamples(s: seq<Sample>, now: int): seq<Sample>
  {
    if |s| == 0 then []
    else PastSamples(s[..|s| - 1], now) + (if s[|s| - 1].time < now then [s[|s| - 1]] else [])
  }

  /** The samples at or after `now`, in input order. */
  function FutureSamples(s: seq<Sample>, now: int): seq<Sample>
  {
    if |s| == 0 then []
    else FutureSamples(s[..|s| - 1], now) + (if s[|s| - 1].time < now then [] else [s[|s| - 1]])
  }

  /** Every sample goes to exactly one side: the two sides together have the
      input's elements with their multiplicities, so also its length. */
  lemma {:induction false} PartitionIsExact(s: seq<Sample>, now: int)
    ensures multiset(PastSamples(s, now)) + multiset(FutureSamples(s, now)) == multiset(s)
    ensures |PastSamples(s, now)| + |FutureSamples(s, now)| == |s|
  {
    if |s| > 0 {
      var init, last := s[..|s| - 1], s[|s| - 1];
      PartitionIsExact(init, now);
      SplitLast(s);
      var past, future := PastSamples(init, now), FutureSamples(init, now);
      if last.time < now {
        PartitionStepMultiset(past, future, init, last);
      } else {
        PartitionStepMultiset(future, past, init, last);
      }
    }
  }

  lemma SplitLast<T>(s: seq<T>)
    requires |s| > 0
    ensures s == s[..|s| - 1] + [s[|s| - 1]]
  {
  }

  lemma PartitionStepMultiset(grown: seq<Sample>, other: seq<Sample>, init: seq<Sample>, last: Sample)
    requires multiset(grown) + multiset(other) == multiset(init)
    requires |grown| + |other| == |init|
    ensures multiset(grown + [last]) + multiset(other) == multiset(init + [last])
    ensures |grown + [last]| + |other| == |init + [last]|
  {
  }

  /** A sample is past exactly when it is an input sample earlier than `now`,
      and future exactly when it is an input sample not earlier than `now`. */
  lemma {:induction false} PartitionMembership(s: seq<Sample>, now: int, x: Sample)
    ensures x in PastSamples(s, now) <==> x in s && x.time < now
    ensures x in FutureSamples(s, now) <==> x in s && x.time >= now
  {
    if |s| > 0 {
      PartitionMembership(s[..|s| - 1], now, x);
      assert s == s[..|s| - 1] + [s[|s| - 1]];
    }
  }

  /** Classifying a concatenation classifies each part, keeping order: the
      past side of a + b is the past side of a followed by that of b. */
  lemma {:induction false} PartitionOfConcat(a: seq<Sample>, b: seq<Sample>, now: int)
    ensures PastSamples(a + b, now) == PastSamples(a, now) + PastSamples(b, now)
    ensures FutureSamples(a + b, now) == FutureSamples(a, now) + FutureSamples(b, now)
    decreases |b|
  {
    if |b| == 0 {
      assert a + b == a;
    } else {
      var b' := b[..|b| - 1];
      assert (a + b)[..|a + b| - 1] == a + b';
      PartitionOfConcat(a, b', now);
    }
  }

  // ---------------------------------------------------------------------
  // Record shapes

  /** `mapRecordToTimestream`: one dimension naming the identifier, the value
      as the measure and the decimal text of the time, in seconds. */
  function MapRecordToTimestream(record: Sample): (r: TimestreamRecord)
    ensures r.dimensions == [Dimension("identifier", record.identifier)]
    ensures r.measureValue == record.value && r.timeUnit == "SECONDS"
    ensures ParseInt(r.time) == Some(record.time)
  {
    IntToStringRoundTrip(record.time);
    TimestreamRecord(
      [Dimension("identifier", record.identifier)],
      "cpu usage",
      record.value,
      "VARCHAR",
      IntToString(record.time),
      "SECONDS")
  }

  /** A time-series record determines the identifier, time and value of the
      sample it came from. */
  lemma MappedRecordDeterminesSample(a: Sample, b: Sample)
    requires MapRecordToTimestream(a) == MapRecordToTimestream(b)
    ensures a.identifier == b.identifier && a.time == b.time && a.value == b.value
  {
    assert MapRecordToTimestream(a).dimensions[0].value == a.identifier;
    assert Some(a.time) == ParseInt(MapRecordToTimestream(a).time);
  }

  /** The future-table item of a sample, carrying the call's one expiry. */
  function FutureItem(record: Sample, expiry: int): DynamoItem {
    DynamoItem(record.identifier, record.time, record.value, record.metadata, record, expiry)
  }

  function TimestreamRecords(samples: seq<Sample>): seq<TimestreamRecord> {
    seq(|samples|, i requires 0 <= i < |samples| => MapRecordToTimestream(samples[i]))
  }

  function FutureItems(samples: seq<Sample>, expiry: int): seq<DynamoItem> {
    seq(|samples|, i requires 0 <= i < |samples| => FutureItem(samples[i], expiry))
  }

  /** `categoriseResults`: reads the clock twice, once (`new Date()`) for the
      expiry and once (`Date.now()`) for the `now` that every sample is
      compared with, then sorts each sample into one of the two outputs. */
  method CategoriseResults(apiResults: seq<Sample>, dateMs: int, nowMs: int)
    returns (pastRecords: seq<TimestreamRecord>, futureRecords: seq<DynamoItem>)
    ensures pastRecords == TimestreamRecords(PastSamples(apiResults, Seconds(nowMs)))
    ensures futureRecords == FutureItems(FutureSamples(apiResults, Seconds(nowMs)), ExpirySeconds(dateMs))
    ensures |pastRecords| + |futureRecords| == |apiResults|
    ensures forall i :: 0 <= i < |futureRecords| ==> futureRecords[i].expiry == ExpirySeconds(dateMs)
  {
    var expiryTime := ExpirySeconds(dateMs);
    var now := Seconds(nowMs);
    pastRecords, futureRecords := [], [];
    var i := 0;
    while i < |apiResults|
      invariant 0 <= i <= |apiResults|
      invariant pastRecords == TimestreamRecords(PastSamples(apiResults[..i], now))
      invariant futureRecords == FutureItems(FutureSamples(apiResults[..i], now), expiryTime)
    {
      var identifierRecord := apiResults[i];
      assert apiResults[..i + 1][..i] == apiResults[..i];
      if identifierRecord.time < now {
        pastRecords := pastRecords + [MapRecordToTimestream(identifierRecord)];
      } else {
        futureRecords := futureRecords + [FutureItem(identifierRecord, expiryTime)];
      }
      i := i + 1;
    }
    assert apiResults[..i] == apiResults;
    PartitionIsExact(apiResults, now);
  }

  // ---------------------------------------------------------------------
  // The stub data source

  /** `spoofRecords`: from one clock reading `now`, a sample every five
      minutes from a day before `now` up to, not including, a day after it.
      `draw(k)` stands for the text of the k-th random value. */
  method SpoofRecords(identifier: string, nowMs: int, draw: nat -> string) returns (records: seq<Sample>)
    ensures |records| == 576
    ensures forall k :: 0 <= k < |records| ==>
      && records[k].identifier == identifier
      && records[k].time == Seconds(nowMs) - SecondsPerDay + SpoofStep * k
      && records[k].value == draw(k)
      && records[k].metadata == (if records[k].time < Seconds(nowMs) then "Past" else "Future")
  {
    records := [];
    var now := Seconds(nowMs);
    var startTime := now - SecondsPerDay;
    var endTime := now + SecondsPerDay;
    var currentTime := startTime;
    while currentTime < endTime
      invariant currentTime == startTime + SpoofStep * |records|
      invariant currentTime <= endTime
      invariant (endTime - currentTime) % SpoofStep == 0
      invariant forall k :: 0 <= k < |records| ==>
        && records[k].identifier == identifier
        && records[k].time == startTime + SpoofStep * k
        && records[k].value == draw(k)
        && records[k].metadata == (if records[k].time < now then "Past" else "Future")
      decreases endTime - currentTime
    {
      var record := Sample(identifier, currentTime, draw(|records|), if currentTime < now then "Past" else "Future");
      records := records + [record];
      currentTime := currentTime + SpoofStep;
    }
  }

  /** Of the stub's samples, the first 288 (the day before `now`) are past
      and the other 288 future, so the classifier with the same `now` sends
      exactly those marked "Past" to the time-series store. */
  lemma SpoofMetadataMatchesClassifier(records: seq<Sample>, now: int, x: Sample)
    requires forall k :: 0 <= k < |records| ==>
      records[k].metadata == (if records[k].time < now then "Past" else "Future")
    ensures x in PastSamples(records, now) <==> x in records && x.metadata == "Past"
  {
    PartitionMembership(records, now, x);
  }

  // ---------------------------------------------------------------------
  // Configuration

  datatype IngestError = MissingVariable(name: string) | MissingApiKey | BatchWriteFailed

  /** Names of the variables this lambda needs, in the order it checks them. */
  const IngestionVariables: seq<string> := ["TS_DB_NAME", "TS_TABLE_NAME", "FUTURE_TABLE"]

  datatype Config = Config(database: string, table: string, futureTable: string)

  /** `checkEnvironmentVariables`: fails on the first of the database, table
      and future-table variables that is unset or empty, and otherwise yields
      their values. */
  function CheckEnvironmentVariables(env: Env): (r: Result<Config, IngestError>)
    ensures r.Failure? <==> exists i :: 0 <= i < |IngestionVariables| && !Present(env, IngestionVariables[i])
    ensures r.Failure? ==> exists i :: (0 <= i < |IngestionVariables|
      && r.error == MissingVariable(IngestionVariables[i])
      && !Present(env, IngestionVariables[i])
      && forall j :: 0 <= j < i ==> Present(env, IngestionVariables[j]))
    ensures r.Success? ==> r.value == Config(Value(env, "TS_DB_NAME"), Value(env, "TS_TABLE_NAME"), Value(env, "FUTURE_TABLE"))
  {
    match FirstMissing(env, IngestionVariables)
    case Some(i) => Failure(MissingVariable(IngestionVariables[i]))
    case None =>
      assert Present(env, IngestionVariables[0]) && Present(env, IngestionVariables[1]) && Present(env, IngestionVariables[2]);
      Success(Config(env["TS_DB_NAME"], env["TS_TABLE_NAME"], env["FUTURE_TABLE"]))
  }

  // ---------------------------------------------------------------------
  // Store writers

  /** What the time-series store answers to one write request; the writer
      only logs it. */
  datatype WriteOutcome = Written | RejectedRecords | WriteFailed

  /** The observable effects of the ingestion lambda, in the order issued. */
  datatype IngestCall =
    | ParameterRead(name: string)
    | Fetch(identifier: string)
      /** A writer starting on `count` records (its "Putting ..." log line). */
    | TimestreamWriterStarted(count: nat)
    | TimestreamWrite(database: string, table: string, records: seq<TimestreamRecord>, outcome: WriteOutcome)
    | DynamoWriterStarted(count: nat)
      /** A key-value batch write and whether the store accepted the request. */
    | DynamoBatchWrite(tableName: string, items: seq<DynamoItem>, accepted: bool)

  function TimestreamWrites(chunks: seq<seq<TimestreamRecord>>, database: string, table: string,
                            timestream: seq<TimestreamRecord> -> WriteOutcome): seq<IngestCall>
  {
    seq(|chunks|, i requires 0 <= i < |chunks| => TimestreamWrite(database, table, chunks[i], timestream(chunks[i])))
  }

  /** The batch writes for `chunks`, in order, up to and including the first
      request the store fails: its awaited promise rejects, which ends the
      writer. */
  function DynamoWrites(chunks: seq<seq<DynamoItem>>, tableName: string,
                        dynamo: seq<DynamoItem> -> bool): seq<IngestCall>
  {
    if |chunks| == 0 then []
    else
      [DynamoBatchWrite(tableName, chunks[0], dynamo(chunks[0]))]
        + (if dynamo(chunks[0]) then DynamoWrites(chunks[1..], tableName, dynamo) else [])
  }

  /** The store accepts the batch write of every chunk. */
  predicate AllAccepted(chunks: seq<seq<DynamoItem>>, dynamo: seq<DynamoItem> -> bool) {
    forall i :: 0 <= i < |chunks| ==> dynamo(chunks[i])
  }

  /** After accepted chunks the writes of the next ones follow on. */
  lemma {:induction false} DynamoWritesSplit(done: seq<seq<DynamoItem>>, rest: seq<seq<DynamoItem>>, tableName: string,
                                             dynamo: seq<DynamoItem> -> bool)
    requires AllAccepted(done, dynamo)
    ensures DynamoWrites(done + rest, tableName, dynamo) == DynamoWrites(done, tableName, dynamo) + DynamoWrites(rest, tableName, dynamo)
  {
    if |done| == 0 {
      assert done + rest == rest;
    } else {
      assert (done + rest)[0] == done[0];
      assert (done + rest)[1..] == done[1..] + rest;
      DynamoWritesSplit(done[1..], rest, tableName, dynamo);
    }
  }

  /** What `uploadPastRecordsIntoTimestream` issues for `records`. */
  function TimestreamUpload(records: seq<TimestreamRecord>, database: string, table: string,
                            timestream: seq<TimestreamRecord> -> WriteOutcome): seq<IngestCall>
  {
    [TimestreamWriterStarted(|records|)] + TimestreamWrites(Chunks(records, TimestreamWriteLimit), database, table, timestream)
  }

  /** What `uploadFutureRecordsIntoDynamo` issues for `items`. */
  function DynamoUpload(items: seq<DynamoItem>, tableName: string,
                        dynamo: seq<DynamoItem> -> bool): seq<IngestCall>
  {
    [DynamoWriterStarted(|items|)] + DynamoWrites(Chunks(items, DynamoWriteLimit), tableName, dynamo)
  }

  /** The records of the time-series writes of a log, in order. */
  function RequestedRecords(calls: seq<IngestCall>): seq<TimestreamRecord>
  {
    if |calls| == 0 then []
    else (if calls[0].TimestreamWrite? then calls[0].records else []) + RequestedRecords(calls[1..])
  }

  /** The items of the key-value batch writes of a log, in order. */
  function RequestedItems(calls: seq<IngestCall>): seq<DynamoItem>
  {
    if |calls| == 0 then []
    else (if calls[0].DynamoBatchWrite? then calls[0].items else []) + RequestedItems(calls[1..])
  }

  lemma {:induction false} RequestedRecordsOfConcat(a: seq<IngestCall>, b: seq<IngestCall>)
    ensures RequestedRecords(a + b) == RequestedRecords(a) + RequestedRecords(b)
  {
    if |a| == 0 {
      assert a + b == b;
    } else {
      assert (a + b)[0] == a[0];
      assert (a + b)[1..] == a[1..] + b;
      RequestedRecordsOfConcat(a[1..], b);
      ConcatAssoc(if a[0].TimestreamWrite? then a[0].records else [], RequestedRecords(a[1..]), RequestedRecords(b));
    }
  }

  lemma {:induction false} RequestedItemsOfConcat(a: seq<IngestCall>, b: seq<IngestCall>)
    ensures RequestedItems(a + b) == RequestedItems(a) + RequestedItems(b)
  {
    if |a| == 0 {
      assert a + b == b;
    } else {
      assert (a + b)[0] == a[0];
      assert (a + b)[1..] == a[1..] + b;
      RequestedItemsOfConcat(a[1..], b);
      ConcatAssoc(if a[0].DynamoBatchWrite? then a[0].items else [], RequestedItems(a[1..]), RequestedItems(b));
    }
  }

  /** The requests of a log, concatenated, are those of its parts. */
  lemma RequestedOfConcat(a: seq<IngestCall>, b: seq<IngestCall>)
    ensures RequestedRecords(a + b) == RequestedRecords(a) + RequestedRecords(b)
    ensures RequestedItems(a + b) == RequestedItems(a) + RequestedItems(b)
  {
    RequestedRecordsOfConcat(a, b);
    RequestedItemsOfConcat(a, b);
  }

  /** `uploadPastRecordsIntoTimestream`: while the array is not empty, splice
      off its first 100 records and write them, whatever the store answers. */
  method UploadPastRecordsIntoTimestream(pastRecords: JsArray<TimestreamRecord>, database: string, table: string,
                                         timestream: seq<TimestreamRecord> -> WriteOutcome)
    returns (calls: seq<IngestCall>)
    modifies pastRecords
    ensures pastRecords.elements == []
    ensures calls == TimestreamUpload(old(pastRecords.elements), database, table, timestream)
  {
    calls := [TimestreamWriterStarted(|pastRecords.elements|)];
    ghost var chunks: seq<seq<TimestreamRecord>> := [];
    while |pastRecords.elements| > 0
      invariant Chunks(old(pastRecords.elements), TimestreamWriteLimit) == chunks + Chunks(pastRecords.elements, TimestreamWriteLimit)
      invariant calls == [TimestreamWriterStarted(|old(pastRecords.elements)|)] + TimestreamWrites(chunks, database, table, timestream)
      decreases |pastRecords.elements|
    {
      var request := pastRecords.SpliceFront(TimestreamWriteLimit);
      var outcome := timestream(request);
      calls := calls + [TimestreamWrite(database, table, request, outcome)];
      chunks := chunks + [request];
    }
  }

  /** One more batch write after accepted ones: it is appended to the log,
      and the writes go on exactly when the store accepts it. */
  lemma {:induction false} DynamoWriteStep(chunks: seq<seq<DynamoItem>>, request: seq<DynamoItem>, rest: seq<seq<DynamoItem>>,
                        tableName: string, dynamo: seq<DynamoItem> -> bool)
    requires AllAccepted(chunks, dynamo)
    ensures DynamoWrites((chunks + [request]) + rest, tableName, dynamo)
           == DynamoWrites(chunks, tableName, dynamo) + [DynamoBatchWrite(tableName, request, dynamo(request))]
              + (if dynamo(request) then DynamoWrites(rest, tableName, dynamo) else [])
  {
    DynamoWritesSplit(chunks, [request] + rest, tableName, dynamo);
    ConcatAssoc(chunks, [request], rest);
    assert ([request] + rest)[0] == request;
    assert ([request] + rest)[1..] == rest;
    ConcatAssoc(DynamoWrites(chunks, tableName, dynamo), [DynamoBatchWrite(tableName, request, dynamo(request))],
                if dynamo(request) then DynamoWrites(rest, tableName, dynamo) else []);
  }

  /** An accepted batch write extends the accepted prefix by one chunk. */
  lemma {:induction false} DynamoWriteAccepted(chunks: seq<seq<DynamoItem>>, request: seq<DynamoItem>,
                                               tableName: string, dynamo: seq<DynamoItem> -> bool)
    requires AllAccepted(chunks, dynamo) && dynamo(request)
    ensures AllAccepted(chunks + [request], dynamo)
    ensures DynamoWrites(chunks + [request], tableName, dynamo)
              == DynamoWrites(chunks, tableName, dynamo) + [DynamoBatchWrite(tableName, request, true)]
  {
    DynamoWriteStep(chunks, request, [], tableName, dynamo);
    assert (chunks + [request]) + [] == chunks + [request];
    assert DynamoWrites([], tableName, dynamo) == [];
  }

  /** One pass of the future writer's loop on the array: the piece spliced
      off is the next chunk, and what is left is the rest of the input. */
  lemma {:induction false} FutureWriterPieces(original: seq<DynamoItem>, chunks: seq<seq<DynamoItem>>, before: seq<DynamoItem>,
                           request: seq<DynamoItem>, after: seq<DynamoItem>)
    requires |before| > 0
    requires request == before[..if DynamoWriteLimit < |before| then DynamoWriteLimit else |before|]
    requires after == before[|request|..]
    requires Chunks(original, DynamoWriteLimit) == chunks + Chunks(before, DynamoWriteLimit)
    requires original == Flatten(chunks) + before
    ensures Chunks(original, DynamoWriteLimit) == (chunks + [request]) + Chunks(after, DynamoWriteLimit)
    ensures original == Flatten(chunks + [request]) + after
  {
    ChunksSplice(original, chunks, before, DynamoWriteLimit);
    assert before == request + after;
    FlattenAppend(chunks, request);
    ConcatAssoc(Flatten(chunks), request, after);
  }

  /** One pass of the future writer's loop on the log: from the loop's
      invariant before the pass, the invariant after it, or, when the store
      fails the request, the writer's final log. */
  lemma {:induction false} FutureWriterCalls(original: seq<DynamoItem>, chunks: seq<seq<DynamoItem>>, request: seq<DynamoItem>,
                          after: seq<DynamoItem>, calls: seq<IngestCall>,
                          tableName: string, dynamo: seq<DynamoItem> -> bool)
    requires Chunks(original, DynamoWriteLimit) == (chunks + [request]) + Chunks(after, DynamoWriteLimit)
    requires AllAccepted(chunks, dynamo)
    requires RequestedItems(calls) == Flatten(chunks)
    requires calls == [DynamoWriterStarted(|original|)] + DynamoWrites(chunks, tableName, dynamo)
    ensures var next := calls + [DynamoBatchWrite(tableName, request, dynamo(request))];
      && RequestedItems(next) == Flatten(chunks + [request])
      && (dynamo(request) ==>
            && AllAccepted(chunks + [request], dynamo)
            && next == [DynamoWriterStarted(|original|)] + DynamoWrites(chunks + [request], tableName, dynamo))
      && (!dynamo(request) ==>
            && next == DynamoUpload(original, tableName, dynamo)
            && !AllAccepted(Chunks(original, DynamoWriteLimit), dynamo))
  {
    var call := DynamoBatchWrite(tableName, request, dynamo(request));
    var start := [DynamoWriterStarted(|original|)];
    var done := DynamoWrites(chunks, tableName, dynamo);
    DynamoWriteStep(chunks, request, Chunks(after, DynamoWriteLimit), tableName, dynamo);
    if dynamo(request) {
      DynamoWriteAccepted(chunks, request, tableName, dynamo);
    }
    assert RequestedItems([call]) == request;
    RequestedOfConcat(calls, [call]);
    FlattenAppend(chunks, request);
    ConcatAssoc(start, done, [call]);
    if !dynamo(request) {
      assert Chunks(original, DynamoWriteLimit)[|chunks|] == request;
      assert done + [call] + [] == done + [call];
    }
  }

  /** `uploadFutureRecordsIntoDynamo`: while the array is not empty, splice
      off its first 25 items and batch-write them; a request the store fails
      rejects the awaited promise and ends the writer with what is left in
      the array. */
  method UploadFutureRecordsIntoDynamo(futureRecords: JsArray<DynamoItem>, tableName: string,
                                       dynamo: seq<DynamoItem> -> bool)
    returns (calls: seq<IngestCall>, accepted: bool)
    modifies futureRecords
    ensures calls == DynamoUpload(old(futureRecords.elements), tableName, dynamo)
    ensures accepted <==> AllAccepted(Chunks(old(futureRecords.elements), DynamoWriteLimit), dynamo)
    ensures old(futureRecords.elements) == RequestedItems(calls) + futureRecords.elements
    ensures accepted ==> futureRecords.elements == []
  {
    calls := [DynamoWriterStarted(|futureRecords.elements|)];
    ghost var chunks: seq<seq<DynamoItem>> := [];
    while |futureRecords.elements| > 0
      invariant Chunks(old(futureRecords.elements), DynamoWriteLimit) == chunks + Chunks(futureRecords.elements, DynamoWriteLimit)
      invariant AllAccepted(chunks, dynamo)
      invariant old(futureRecords.elements) == Flatten(chunks) + futureRecords.elements
      invariant RequestedItems(calls) == Flatten(chunks)
      invariant calls == [DynamoWriterStarted(|old(futureRecords.elements)|)] + DynamoWrites(chunks, tableName, dynamo)
      decreases |futureRecords.elements|
    {
      ghost var before := futureRecords.elements;
      var request := futureRecords.SpliceFront(DynamoWriteLimit);
      var ok := dynamo(request);
      FutureWriterPieces(old(futureRecords.elements), chunks, before, request, futureRecords.elements);
      FutureWriterCalls(old(futureRecords.elements), chunks, request, futureRecords.elements, calls, tableName, dynamo);
      calls := calls + [DynamoBatchWrite(tableName, request, ok)];
      chunks := chunks + [request];
      if !ok {
        return calls, false;
      }
    }
    accepted := true;
    assert Chunks(futureRecords.elements, DynamoWriteLimit) == [];
    assert chunks + [] == chunks;
  }

  /** The past writer issues ⌈N/100⌉ write requests to the named database and
      table, each of 1 to 100 records, all full but the last, whose records in
      request order are exactly its input; no answer of the store changes this. */
  lemma TimestreamUploadShape(records: seq<TimestreamRecord>, database: string, table: string,
                              timestream: seq<TimestreamRecord> -> WriteOutcome)
    ensures var w := TimestreamWrites(Chunks(records, TimestreamWriteLimit), database, table, timestream);
      && |w| == CeilDiv(|records|, 100)
      && (forall i :: 0 <= i < |w| ==>
            w[i].TimestreamWrite? && w[i].database == database && w[i].table == table && 1 <= |w[i].records| <= 100)
      && (forall i :: 0 <= i < |w| - 1 ==> |w[i].records| == 100)
      && RequestedRecords(TimestreamUpload(records, database, table, timestream)) == records
  {
    var chunks := Chunks(records, TimestreamWriteLimit);
    ChunksCount(records, TimestreamWriteLimit);
    ChunksFull(records, TimestreamWriteLimit);
    ChunksFlatten(records, TimestreamWriteLimit);
    TimestreamWritesRecords(chunks, database, table, timestream);
    var w := TimestreamWrites(chunks, database, table, timestream);
    assert TimestreamUpload(records, database, table, timestream)[1..] == w;
  }

  lemma {:induction false} TimestreamWritesRecords(chunks: seq<seq<TimestreamRecord>>, database: string, table: string,
                                                   timestream: seq<TimestreamRecord> -> WriteOutcome)
    ensures RequestedRecords(TimestreamWrites(chunks, database, table, timestream)) == Flatten(chunks)
  {
    var w := TimestreamWrites(chunks, database, table, timestream);
    if |chunks| > 0 {
      assert w[1..] == TimestreamWrites(chunks[1..], database, table, timestream);
      TimestreamWritesRecords(chunks[1..], database, table, timestream);
    }
  }

  /** The batch writes issued for some chunks are those of a prefix of them,
      in order, each but the last accepted; they stop early only at a failed
      request, and cover every chunk when the store accepts them all. */
  lemma {:induction false} DynamoWritesPrefix(chunks: seq<seq<DynamoItem>>, tableName: string,
                                              dynamo: seq<DynamoItem> -> bool)
    ensures var w := DynamoWrites(chunks, tableName, dynamo);
      && |w| <= |chunks|
      && (|chunks| > 0 ==> |w| > 0)
      && (forall i :: 0 <= i < |w| ==> w[i] == DynamoBatchWrite(tableName, chunks[i], dynamo(chunks[i])))
      && (forall i :: 0 <= i < |w| - 1 ==> dynamo(chunks[i]))
      && (|w| < |chunks| ==> !dynamo(chunks[|w| - 1]))
      && (AllAccepted(chunks, dynamo) ==> |w| == |chunks|)
  {
    if |chunks| > 0 {
      DynamoWritesPrefix(chunks[1..], tableName, dynamo);
      var w := DynamoWrites(chunks, tableName, dynamo);
      if dynamo(chunks[0]) {
        var rest := DynamoWrites(chunks[1..], tableName, dynamo);
        assert w == [w[0]] + rest;
        forall i | 1 <= i < |w|
          ensures w[i] == DynamoBatchWrite(tableName, chunks[i], dynamo(chunks[i]))
        {
          assert w[i] == rest[i - 1];
        }
        if AllAccepted(chunks, dynamo) {
          assert AllAccepted(chunks[1..], dynamo) by {
            forall i | 0 <= i < |chunks[1..]|
              ensures dynamo(chunks[1..][i])
            {
              assert chunks[1..][i] == chunks[i + 1];
            }
          }
        }
      }
    }
  }

  /** The future writer issues at most ⌈N/25⌉ batch writes to the named
      table, each of 1 to 25 items, all but the last full and accepted; when
      the store accepts every request it issues exactly ⌈N/25⌉, whose items in
      request order are exactly its input. */
  lemma DynamoUploadShape(items: seq<DynamoItem>, tableName: string, dynamo: seq<DynamoItem> -> bool)
    ensures var w := DynamoWrites(Chunks(items, DynamoWriteLimit), tableName, dynamo);
      && |w| <= CeilDiv(|items|, 25)
      && (forall i :: 0 <= i < |w| ==>
            w[i].DynamoBatchWrite? && w[i].tableName == tableName && 1 <= |w[i].items| <= 25)
      && (forall i :: 0 <= i < |w| - 1 ==> |w[i].items| == 25 && w[i].accepted)
      && (AllAccepted(Chunks(items, DynamoWriteLimit), dynamo) ==>
            |w| == CeilDiv(|items|, 25) && RequestedItems(DynamoUpload(items, tableName, dynamo)) == items)
  {
    var chunks := Chunks(items, DynamoWriteLimit);
    ChunksCount(items, DynamoWriteLimit);
    ChunksFull(items, DynamoWriteLimit);
    DynamoWritesPrefix(chunks, tableName, dynamo);
    var w := DynamoWrites(chunks, tableName, dynamo);
    assert DynamoUpload(items, tableName, dynamo)[1..] == w;
    if AllAccepted(chunks, dynamo) {
      ChunksFlatten(items, DynamoWriteLimit);
      DynamoWritesItems(chunks, tableName, dynamo);
    }
  }

  lemma {:induction false} DynamoWritesItems(chunks: seq<seq<DynamoItem>>, tableName: string,
                                             dynamo: seq<DynamoItem> -> bool)
    requires AllAccepted(chunks, dynamo)
    ensures RequestedItems(DynamoWrites(chunks, tableName, dynamo)) == Flatten(chunks)
  {
    var w := DynamoWrites(chunks, tableName, dynamo);
    if |chunks| > 0 {
      assert dynamo(chunks[0]);
      assert w[1..] == DynamoWrites(chunks[1..], tableName, dynamo);
      assert AllAccepted(chunks[1..], dynamo) by {
        forall i | 0 <= i < |chunks[1..]|
          ensures dynamo(chunks[1..][i])
        {
          assert chunks[1..][i] == chunks[i + 1];
        }
      }
      DynamoWritesItems(chunks[1..], tableName, dynamo);
    }
  }

  // ---------------------------------------------------------------------
  // The handler

  /** The two clock readings `categoriseResults` takes for one message. */
  datatype ClockReading = ClockReading(dateMs: int, nowMs: int)

  /** The fetched samples of all identifiers, concatenated in identifier order. */
  function FetchAll(identifiers: seq<string>, apiKey: string, fetch: (string, string) -> seq<Sample>): seq<Sample>
  {
    if |identifiers| == 0 then []
    else FetchAll(identifiers[..|identifiers| - 1], apiKey, fetch) + fetch(identifiers[|identifiers| - 1], apiKey)
  }

  function FetchCalls(identifiers: seq<string>): seq<IngestCall> {
    seq(|identifiers|, i requires 0 <= i < |identifiers| => Fetch(identifiers[i]))
  }

  /** What the handler issues for one message: a fetch per identifier, then
      each writer on its side of the one classification, if that side is not
      empty. */
  function MessageCalls(identifiers: seq<string>, reading: ClockReading, config: Config, apiKey: string,
                        fetch: (string, string) -> seq<Sample>,
                        timestream: seq<TimestreamRecord> -> WriteOutcome,
                        dynamo: seq<DynamoItem> -> bool): seq<IngestCall>
  {
    var samples := FetchAll(identifiers, apiKey, fetch);
    var now := Seconds(reading.nowMs);
    var past := TimestreamRecords(PastSamples(samples, now));
    var future := FutureItems(FutureSamples(samples, now), ExpirySeconds(reading.dateMs));
    FetchCalls(identifiers)
      + (if |past| > 0 then TimestreamUpload(past, config.database, config.table, timestream) else [])
      + (if |future| > 0 then DynamoUpload(future, config.futureTable, dynamo) else [])
  }

  /** The key-value writer, if it runs for the message, finishes: the store
      accepts each of its batch writes. */
  predicate MessageAccepted(identifiers: seq<string>, reading: ClockReading, apiKey: string,
                            fetch: (string, string) -> seq<Sample>, dynamo: seq<DynamoItem> -> bool)
  {
    var samples := FetchAll(identifiers, apiKey, fetch);
    var future := FutureItems(FutureSamples(samples, Seconds(reading.nowMs)), ExpirySeconds(reading.dateMs));
    |future| == 0 || AllAccepted(Chunks(future, DynamoWriteLimit), dynamo)
  }

  predicate MessagesAccepted(messages: seq<seq<string>>, clock: nat -> ClockReading, apiKey: string,
                             fetch: (string, string) -> seq<Sample>, dynamo: seq<DynamoItem> -> bool)
  {
    forall m :: 0 <= m < |messages| ==> MessageAccepted(messages[m], clock(m), apiKey, fetch, dynamo)
  }

  /** What the handler issues for its messages, message `m` classified with
      clock readings `clock(m)`, up to the end of the first message whose
      key-value writer fails: that failure ends the invocation. */
  function MessagesCalls(messages: seq<seq<string>>, clock: nat -> ClockReading, config: Config, apiKey: string,
                         fetch: (string, string) -> seq<Sample>,
                         timestream: seq<TimestreamRecord> -> WriteOutcome,
                         dynamo: seq<DynamoItem> -> bool): seq<IngestCall>
  {
    if |messages| == 0 then []
    else
      var init := messages[..|messages| - 1];
      if MessagesAccepted(init, clock, apiKey, fetch, dynamo) then
        MessagesCalls(init, clock, config, apiKey, fetch, timestream, dynamo)
          + MessageCalls(messages[|messages| - 1], clock(|messages| - 1), config, apiKey, fetch, timestream, dynamo)
      else
        MessagesCalls(init, clock, config, apiKey, fetch, timestream, dynamo)
  }

  lemma MessagesCallsStep(messages: seq<seq<string>>, m: nat, clock: nat -> ClockReading, config: Config, apiKey: string,
                          fetch: (string, string) -> seq<Sample>,
                          timestream: seq<TimestreamRecord> -> WriteOutcome,
                          dynamo: seq<DynamoItem> -> bool)
    requires m < |messages| && MessagesAccepted(messages[..m], clock, apiKey, fetch, dynamo)
    ensures MessagesCalls(messages[..m + 1], clock, config, apiKey, fetch, timestream, dynamo)
      == MessagesCalls(messages[..m], clock, config, apiKey, fetch, timestream, dynamo)
        + MessageCalls(messages[m], clock(m), config, apiKey, fetch, timestream, dynamo)
  {
    assert messages[..m + 1][..m] == messages[..m];
  }

  lemma MessagesAcceptedStep(messages: seq<seq<string>>, m: nat, clock: nat -> ClockReading, apiKey: string,
                             fetch: (string, string) -> seq<Sample>, dynamo: seq<DynamoItem> -> bool)
    requires m < |messages| && MessagesAccepted(messages[..m], clock, apiKey, fetch, dynamo)
    requires MessageAccepted(messages[m], clock(m), apiKey, fetch, dynamo)
    ensures MessagesAccepted(messages[..m + 1], clock, apiKey, fetch, dynamo)
  {
    forall j | 0 <= j < m + 1
      ensures MessageAccepted(messages[..m + 1][j], clock(j), apiKey, fetch, dynamo)
    {
      if j < m {
        assert messages[..m + 1][j] == messages[..m][j];
      }
    }
  }

  /** Nothing is issued after a message whose key-value writer fails. */
  lemma {:induction false} MessagesCallsAfterFailure(messages: seq<seq<string>>, m: nat, clock: nat -> ClockReading,
                                                     config: Config, apiKey: string,
                                                     fetch: (string, string) -> seq<Sample>,
                                                     timestream: seq<TimestreamRecord> -> WriteOutcome,
                                                     dynamo: seq<DynamoItem> -> bool)
    requires m < |messages| && !MessageAccepted(messages[m], clock(m), apiKey, fetch, dynamo)
    ensures MessagesCalls(messages, clock, config, apiKey, fetch, timestream, dynamo)
      == MessagesCalls(messages[..m + 1], clock, config, apiKey, fetch, timestream, dynamo)
    decreases |messages|
  {
    if |messages| == m + 1 {
      assert messages[..m + 1] == messages;
    } else {
      var init := messages[..|messages| - 1];
      assert init[m] == messages[m];
      assert !MessagesAccepted(init, clock, apiKey, fetch, dynamo);
      MessagesCallsAfterFailure(init, m, clock, config, apiKey, fetch, timestream, dynamo);
      assert init[..m + 1] == messages[..m + 1];
    }
  }

  function KeyCalls(lookup: KeyLookup): seq<IngestCall> {
    if lookup.parameterRead.Some? then [ParameterRead(lookup.parameterRead.value)] else []
  }

  /** One pass of the handler's loop over messages: fetch each identifier's
      samples in turn, concatenating them, classify them once, and run each
      writer only on a non-empty side. */
  method HandleMessage(identifiers: seq<string>, reading: ClockReading, config: Config, apiKey: string,
                       fetch: (string, string) -> seq<Sample>,
                       timestream: seq<TimestreamRecord> -> WriteOutcome,
                       dynamo: seq<DynamoItem> -> bool)
    returns (calls: seq<IngestCall>, accepted: bool)
    ensures calls == MessageCalls(identifiers, reading, config, apiKey, fetch, timestream, dynamo)
    ensures accepted == MessageAccepted(identifiers, reading, apiKey, fetch, dynamo)
  {
    var apiResults: seq<Sample> := [];
    calls := [];
    var j := 0;
    while j < |identifiers|
      invariant 0 <= j <= |identifiers|
      invariant apiResults == FetchAll(identifiers[..j], apiKey, fetch)
      invariant calls == FetchCalls(identifiers[..j])
    {
      assert identifiers[..j + 1][..j] == identifiers[..j];
      var records := fetch(identifiers[j], apiKey);
      calls := calls + [Fetch(identifiers[j])];
      apiResults := apiResults + records;
      j := j + 1;
    }
    assert identifiers[..j] == identifiers;
    var pastRecords, futureRecords := CategoriseResults(apiResults, reading.dateMs, reading.nowMs);
    ghost var fetches := calls;
    var pastCalls: seq<IngestCall> := [];
    if |pastRecords| > 0 {
      var pending := new JsArray(pastRecords);
      pastCalls := UploadPastRecordsIntoTimestream(pending, config.database, config.table, timestream);
    }
    var futureCalls: seq<IngestCall> := [];
    accepted := true;
    if |futureRecords| > 0 {
      var pending := new JsArray(futureRecords);
      futureCalls, accepted := UploadFutureRecordsIntoDynamo(pending, config.futureTable, dynamo);
    }
    calls := calls + pastCalls + futureCalls;
    assert pastCalls == (if |pastRecords| > 0 then TimestreamUpload(pastRecords, config.database, config.table, timestream) else []);
    assert futureCalls == (if |futureRecords| > 0 then DynamoUpload(futureRecords, config.futureTable, dynamo) else []);
  }

  /** The SQS-triggered `handler`: checks its configuration before anything
      else, looks up the API key (failing when there is none), then handles
      each message of the event in turn. */
  method Handler(messages: seq<seq<string>>, env: Env, parameterStore: string -> Option<string>,
                 fetch: (string, string) -> seq<Sample>, clock: nat -> ClockReading,
                 timestream: seq<TimestreamRecord> -> WriteOutcome,
                 dynamo: seq<DynamoItem> -> bool)
    returns (outcome: Outcome<IngestError>, calls: seq<IngestCall>)
    ensures CheckEnvironmentVariables(env).Failure? ==>
      outcome == Fail(CheckEnvironmentVariables(env).error) && calls == []
    ensures CheckEnvironmentVariables(env).Success? ==>
      var lookup := LookupApiKey(env, "API_KEY_SSM_ID", parameterStore);
      (lookup.key == "" ==> outcome == Fail(MissingApiKey) && calls == KeyCalls(lookup))
      && (lookup.key != "" ==>
            && calls == KeyCalls(lookup)
              + MessagesCalls(messages, clock, CheckEnvironmentVariables(env).value, lookup.key, fetch, timestream, dynamo)
            && outcome == if MessagesAccepted(messages, clock, lookup.key, fetch, dynamo) then Pass else Fail(BatchWriteFailed))
  {
    var check := CheckEnvironmentVariables(env);
    if check.Failure? {
      return Fail(check.error), [];
    }
    var config := check.value;
    var lookup := LookupApiKey(env, "API_KEY_SSM_ID", parameterStore);
    calls := KeyCalls(lookup);
    var apiKey := lookup.key;
    if apiKey == "" {
      return Fail(MissingApiKey), calls;
    }
    var handled: seq<IngestCall> := [];
    var m := 0;
    while m < |messages|
      invariant 0 <= m <= |messages|
      invariant MessagesAccepted(messages[..m], clock, apiKey, fetch, dynamo)
      invariant handled == MessagesCalls(messages[..m], clock, config, apiKey, fetch, timestream, dynamo)
    {
      var messageCalls, accepted := HandleMessage(messages[m], clock(m), config, apiKey, fetch, timestream, dynamo);
      MessagesCallsStep(messages, m, clock, config, apiKey, fetch, timestream, dynamo);
      handled := handled + messageCalls;
      if !accepted {
        MessagesCallsAfterFailure(messages, m, clock, config, apiKey, fetch, timestream, dynamo);
        assert !MessageAccepted(messages[m], clock(m), apiKey, fetch, dynamo);
        return Fail(BatchWriteFailed), calls + handled;
      }
      MessagesAcceptedStep(messages, m, clock, apiKey, fetch, dynamo);
      m := m + 1;
    }
    assert messages[..m] == messages;
    calls := calls + handled;
    outcome := Pass;
  }

  lemma {:induction false} NoTimestreamWrites(calls: seq<IngestCall>)
    requires forall i :: 0 <= i < |calls| ==> !calls[i].TimestreamWrite?
    ensures RequestedRecords(calls) == []
  {
    if |calls| > 0 {
      NoTimestreamWrites(calls[1..]);
    }
  }

  lemma {:induction false} NoDynamoWrites(calls: seq<IngestCall>)
    requires forall i :: 0 <= i < |calls| ==> !calls[i].DynamoBatchWrite?
    ensures RequestedItems(calls) == []
  {
    if |calls| > 0 {
      NoDynamoWrites(calls[1..]);
    }
  }

  /** Fetches request no writes. */
  lemma FetchesRequestNothing(identifiers: seq<string>)
    ensures RequestedRecords(FetchCalls(identifiers)) == []
    ensures RequestedItems(FetchCalls(identifiers)) == []
  {
    NoTimestreamWrites(FetchCalls(identifiers));
    NoDynamoWrites(FetchCalls(identifiers));
  }

  /** Each writer requests writes to its own store only; the past writer's
      requests are its records. */
  lemma UploadRequests(past: seq<TimestreamRecord>, future: seq<DynamoItem>, config: Config,
                       timestream: seq<TimestreamRecord> -> WriteOutcome, dynamo: seq<DynamoItem> -> bool)
    ensures RequestedRecords(TimestreamUpload(past, config.database, config.table, timestream)) == past
    ensures RequestedItems(TimestreamUpload(past, config.database, config.table, timestream)) == []
    ensures RequestedRecords(DynamoUpload(future, config.futureTable, dynamo)) == []
  {
    TimestreamUploadShape(past, config.database, config.table, timestream);
    NoDynamoWrites(TimestreamUpload(past, config.database, config.table, timestream));
    var d := DynamoUpload(future, config.futureTable, dynamo);
    DynamoWritesPrefix(Chunks(future, DynamoWriteLimit), config.futureTable, dynamo);
    assert d[1..] == DynamoWrites(Chunks(future, DynamoWriteLimit), config.futureTable, dynamo);
    forall i | 0 <= i < |d|
      ensures !d[i].TimestreamWrite?
    {
      if i > 0 {
        assert d[i] == d[1..][i - 1];
      }
    }
    NoTimestreamWrites(d);
  }

  /** For one message, the records sent to the time-series store are the
      mapped past samples of the identifiers' concatenated fetches, each
      exactly once and in order. */
  lemma {:induction false} MessageWritesPastSamplesOnce(identifiers: seq<string>, reading: ClockReading, config: Config,
                                                        apiKey: string, fetch: (string, string) -> seq<Sample>,
                                                        timestream: seq<TimestreamRecord> -> WriteOutcome,
                                                        dynamo: seq<DynamoItem> -> bool)
    ensures var samples := FetchAll(identifiers, apiKey, fetch);
      RequestedRecords(MessageCalls(identifiers, reading, config, apiKey, fetch, timestream, dynamo))
        == TimestreamRecords(PastSamples(samples, Seconds(reading.nowMs)))
  {
    var samples := FetchAll(identifiers, apiKey, fetch);
    var now := Seconds(reading.nowMs);
    var past := TimestreamRecords(PastSamples(samples, now));
    var future := FutureItems(FutureSamples(samples, now), ExpirySeconds(reading.dateMs));
    var fetches := FetchCalls(identifiers);
    var pastCalls := if |past| > 0 then TimestreamUpload(past, config.database, config.table, timestream) else [];
    var futureCalls := if |future| > 0 then DynamoUpload(future, config.futureTable, dynamo) else [];
    assert MessageCalls(identifiers, reading, config, apiKey, fetch, timestream, dynamo) == fetches + pastCalls + futureCalls;
    FetchesRequestNothing(identifiers);
    UploadRequests(past, future, config, timestream, dynamo);
    assert RequestedRecords([]) == [];
    assert RequestedRecords(pastCalls) == past;
    assert RequestedRecords(futureCalls) == [];
    RequestedOfConcat(fetches, pastCalls);
    assert RequestedRecords(fetches + pastCalls) == past;
    RequestedOfConcat(fetches + pastCalls, futureCalls);
    assert RequestedRecords(fetches + pastCalls + futureCalls) == past + [];
  }

  /** For one message whose key-value writer finishes, the items sent to the
      key-value store are its future samples, each exactly once and in order. */
  lemma {:induction false} MessageWritesFutureSamplesOnce(identifiers: seq<string>, reading: ClockReading, config: Config,
                                                          apiKey: string, fetch: (string, string) -> seq<Sample>,
                                                          timestream: seq<TimestreamRecord> -> WriteOutcome,
                                                          dynamo: seq<DynamoItem> -> bool)
    requires MessageAccepted(identifiers, reading, apiKey, fetch, dynamo)
    ensures var samples := FetchAll(identifiers, apiKey, fetch);
      RequestedItems(MessageCalls(identifiers, reading, config, apiKey, fetch, timestream, dynamo))
        == FutureItems(FutureSamples(samples, Seconds(reading.nowMs)), ExpirySeconds(reading.dateMs))
  {
    var samples := FetchAll(identifiers, apiKey, fetch);
    var now := Seconds(reading.nowMs);
    var past := TimestreamRecords(PastSamples(samples, now));
    var future := FutureItems(FutureSamples(samples, now), ExpirySeconds(reading.dateMs));
    var fetches := FetchCalls(identifiers);
    var pastCalls := if |past| > 0 then TimestreamUpload(past, config.database, config.table, timestream) else [];
    var futureCalls := if |future| > 0 then DynamoUpload(future, config.futureTable, dynamo) else [];
    FetchesRequestNothing(identifiers);
    UploadRequests(past, future, config, timestream, dynamo);
    assert RequestedItems([]) == [];
    if |future| > 0 {
      DynamoUploadShape(future, config.futureTable, dynamo);
    }
    RequestedOfConcat(fetches, pastCalls);
    RequestedOfConcat(fetches + pastCalls, futureCalls);
  }

  /** The log shows a writer of that kind starting. */
  predicate StartsTimestreamWriter(calls: seq<IngestCall>) {
    exists i :: 0 <= i < |calls| && calls[i].TimestreamWriterStarted?
  }

  predicate StartsDynamoWriter(calls: seq<IngestCall>) {
    exists i :: 0 <= i < |calls| && calls[i].DynamoWriterStarted?
  }

  /** A writer starts in a + b exactly when it starts in a or in b. */
  lemma StartsOfConcat(a: seq<IngestCall>, b: seq<IngestCall>)
    ensures StartsTimestreamWriter(a + b) <==> StartsTimestreamWriter(a) || StartsTimestreamWriter(b)
    ensures StartsDynamoWriter(a + b) <==> StartsDynamoWriter(a) || StartsDynamoWriter(b)
  {
    forall i | 0 <= i < |a + b|
      ensures (a + b)[i] == if i < |a| then a[i] else b[i - |a|]
    {
    }
    forall j | 0 <= j < |b|
      ensures (a + b)[|a| + j] == b[j]
    {
    }
  }

  /** Each writer logs its own start and no start of the other writer. */
  lemma UploadStarts(past: seq<TimestreamRecord>, future: seq<DynamoItem>, config: Config,
                     timestream: seq<TimestreamRecord> -> WriteOutcome, dynamo: seq<DynamoItem> -> bool)
    ensures var t := TimestreamUpload(past, config.database, config.table, timestream);
      StartsTimestreamWriter(t) && !StartsDynamoWriter(t)
    ensures var d := DynamoUpload(future, config.futureTable, dynamo);
      StartsDynamoWriter(d) && !StartsTimestreamWriter(d)
  {
    var t := TimestreamUpload(past, config.database, config.table, timestream);
    var d := DynamoUpload(future, config.futureTable, dynamo);
    assert t[0].TimestreamWriterStarted?;
    assert d[0].DynamoWriterStarted?;
    DynamoWritesPrefix(Chunks(future, DynamoWriteLimit), config.futureTable, dynamo);
    assert d[1..] == DynamoWrites(Chunks(future, DynamoWriteLimit), config.futureTable, dynamo);
    forall i | 1 <= i < |d|
      ensures d[i].DynamoBatchWrite?
    {
      assert d[i] == d[1..][i - 1];
    }
  }

  /** Within one message, each writer is started exactly when its side of the
      classification is not empty. */
  lemma MessageSkipsEmptyWriters(identifiers: seq<string>, reading: ClockReading, config: Config, apiKey: string,
                                 fetch: (string, string) -> seq<Sample>,
                                 timestream: seq<TimestreamRecord> -> WriteOutcome,
                                 dynamo: seq<DynamoItem> -> bool)
    ensures var samples := FetchAll(identifiers, apiKey, fetch);
      var calls := MessageCalls(identifiers, reading, config, apiKey, fetch, timestream, dynamo);
      && (StartsTimestreamWriter(calls) <==> |PastSamples(samples, Seconds(reading.nowMs))| > 0)
      && (StartsDynamoWriter(calls) <==> |FutureSamples(samples, Seconds(reading.nowMs))| > 0)
  {
    var samples := FetchAll(identifiers, apiKey, fetch);
    var now := Seconds(reading.nowMs);
    var past := TimestreamRecords(PastSamples(samples, now));
    var future := FutureItems(FutureSamples(samples, now), ExpirySeconds(reading.dateMs));
    var fetches := FetchCalls(identifiers);
    var pastCalls := if |past| > 0 then TimestreamUpload(past, config.database, config.table, timestream) else [];
    var futureCalls := if |future| > 0 then DynamoUpload(future, config.futureTable, dynamo) else [];
    assert !StartsTimestreamWriter(fetches) && !StartsDynamoWriter(fetches);
    UploadStarts(past, future, config, timestream, dynamo);
    StartsOfConcat(fetches, pastCalls);
    StartsOfConcat(fetches + pastCalls, futureCalls);
  }
}
