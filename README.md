# serverless-analytics: a Dafny model of the analytics service and its REST handlers

The analytics service stores user events in a key-value table (DynamoDB) and archives them
in an object store (S3). It answers ad-hoc SQL through a query engine (Athena). It also ingests
batches of events in chunks of 25. The REST handlers validate requests, call the service and
turn its answer or its exception into a JSON body and an HTTP status.

The model covers these pieces:

- `Base`: the shared values: `Option`, `Result` (a value or a raised exception, known by its
  `str()` text), `Outcome` (a call that returns nothing or raises), JSON values, clock readings,
  and Python's decimal `str()`/`int()` of integers.
- `AthenaResults`: `_parse_athena_results`, the header row names the columns and every later
  row becomes a record. It is a loop method proved against the function `ParsedRows`.
- `AthenaQuery`: `execute_athena_query`, the submit / poll at most 30 times / fetch loop, as a
  method proved against `QueryOutcome` and `PollsMade`. The query service is a `QueryBackend`
  value that holds its answer to every call.
- `AnalyticsService`: `store_event` with its best-effort archive write `_store_event_to_s3`
  (the date-partitioned key), `get_event`, `get_user_events`, and `get_analytics` with its
  `group_by` dispatch.
- `BatchStore`: `store_events_batch`. The events are an `array<Object>` updated in place. The
  method is proved against `BatchOutcome`, which joins the runs of the chunks. A chunk's write is
  an oracle: it is taken whole, or it fails at a position `k`. A `k` at or past the chunk's end
  means the flush on leaving the writer fails. That flush runs whenever puts were taken, even
  after an exception inside the block, and its own exception then replaces that one.
- `ApiHandler`: `create_event` (a method, since it loops over the required fields and writes
  the metadata into the request's dict), `get_event`, `get_analytics`, `execute_query`,
  `get_user_events` and `create_batch_events`. Each one maps a request and the service's answers
  to a `Response(body, status)`.

Backend calls are parameters:

- a call's outcome is a `Result` or an `Outcome`;
- the status polls are a function `nat -> Result<StatusAnswer>`, indexed by attempt;
- the batch writer's behaviour is a function from chunk number to `ChunkWrite`;
- the clock readings of the batch are a function from event position to `Instant`;
- the user-events index query is a function from limit to answer.

## Model

| member | source | states |
|---|---|---|
| AthenaResults.ParseAthenaResults | src/services/analytics_service.py:182-200 | the nested loops return exactly `ParsedRows(rows)`: the header's names, then one record per data row, in order, with the two exceptions the loops can raise |
| AthenaResults.ParsedRows | src/services/analytics_service.py:184-200 | no rows give `[]`. Otherwise the result is Ok exactly when every header cell has a VarCharValue and no data row is longer than the header; it then holds `len(rows) - 1` records. A header cell without a name gives the KeyError `'VarCharValue'`, and an over-long row gives the IndexError text |
| AthenaResults.HeaderNames | src/services/analytics_service.py:190 | the column names are the header cells' VarCharValue, in order; the first cell without one raises KeyError |
| AthenaResults.HeaderOnlyGivesNoRecords | src/services/analytics_service.py:186-200 | a result set holding only a header row parses to no records |
| AthenaResults.ParsedRecordAt | src/services/analytics_service.py:193-198 | record k comes from data row k+1. Its keys are the column names its cells reach. `columns[i]` maps to cell i's text, or `""` for an absent VarCharValue, unless a later cell repeats that name |
| AthenaResults.RowMapKeys | src/services/analytics_service.py:195-197 | a row's record has exactly the column names of the positions the row reaches |
| AthenaResults.RowMapAt | src/services/analytics_service.py:196-197 | the last cell assigned to a column name is the one the record keeps |
| AthenaQuery.ExecuteAthenaQuery | src/services/analytics_service.py:132-180 | the loop's result is `QueryOutcome(b)` and it makes `PollsMade(b)` status polls |
| AthenaQuery.QueryOutcome | src/services/analytics_service.py:134-180 | every error carries the prefix "Failed to execute Athena query: ". A raised submission, the first poll that raises, a failed fetch after SUCCEEDED, and a parse error each give that prefix followed by their own exception's text, so the `'VarCharValue'` and IndexError texts reach the caller. A success carries the submission's execution id, status "success" and the parsed rows |
| AthenaQuery.PollsMade | src/services/analytics_service.py:147-151 | at most 30 status polls are made |
| AthenaQuery.FirstDecisive | src/services/analytics_service.py:148-177 | the loop ends at the first poll that raises or reports a terminal state; no poll before it does |
| AthenaQuery.TimeoutAfterMaxAttempts | src/services/analytics_service.py:147-177 | thirty non-terminal answers give "Query timeout" (with the prefix) after exactly 30 polls |
| AthenaQuery.FirstTerminalDecides | src/services/analytics_service.py:153-173 | the first terminal state decides after t+1 polls. SUCCEEDED gives the parsed results; FAILED or CANCELLED gives "Query failed: " plus the StateChangeReason, or "Unknown error" |
| AthenaQuery.SucceedsExactly | src/services/analytics_service.py:136-177 | a query succeeds if and only if the submission is accepted, a SUCCEEDED answer comes within 30 polls before any exception or other terminal state, and the rows are fetched and parse |
| AthenaQuery.DecidesAt | src/services/analytics_service.py:148-173 | a decisive answer that follows only non-terminal ones is the one the loop stops at |
| AnalyticsService.Pad2 | src/services/analytics_service.py:50 | `:02d` gives decimal digits whose value is the number; they are two digits below 100 and plain `str()` from 10 on |
| AnalyticsService.ArchiveKeyFields | src/services/analytics_service.py:50 | the key is `events/year=Y/month=MM/day=DD/<event_id>.json`. For every calendar month and day, each field reads back as the year, month and day, with month and day exactly two digits |
| AnalyticsService.KeyLayout | src/services/analytics_service.py:50 | where each literal and each field sits in the key text |
| AnalyticsService.ArchiveRequest | src/services/analytics_service.py:46-60 | a put to bucket serverless-analytics-data-lake with content type application/json and the archive key is made exactly when the event has a parseable timestamp and an event_id; otherwise the write is abandoned silently |
| AnalyticsService.StoreEvent | src/services/analytics_service.py:33-44 | success with `{status: "success", event_id}` exactly when put_item succeeds and the event has an event_id. Otherwise the error is prefixed "Failed to store event: ". No archive write is attempted after a failed put |
| AnalyticsService.StoreResultIgnoresArchive | src/services/analytics_service.py:39-60 | store_event's result does not depend on the archive write's outcome nor on whether the timestamp parses |
| AnalyticsService.GetEvent | src/services/analytics_service.py:62-68 | the item, or none, as read; a raised read gets the prefix "Failed to get event: " |
| AnalyticsService.GetUserEvents | src/services/analytics_service.py:70-83 | the query's Items, `[]` when the answer has none; a raised query gets the prefix "Failed to get user events: " |
| AnalyticsService.GroupItems | src/services/analytics_service.py:102-130 | every group_by value (hour, day, week, month, any other) yields the items unchanged |
| AnalyticsService.GetAnalytics | src/services/analytics_service.py:85-115 | the Items of the range query (`[]` if absent), whatever group_by is; a raised query gets the prefix "Failed to get analytics: " |
| BatchStore.StoreEventsBatch | src/services/analytics_service.py:202-235 | the array afterwards, `successful` and `failed` are exactly `BatchOutcome` of the input: the chunks' runs joined in order |
| BatchStore.StoreChunk | src/services/analytics_service.py:209-230 | one pass of the chunk loop takes the loop state after c chunks to the state after c+1 |
| BatchStore.WriteChunk | src/services/analytics_service.py:212-223 | the chunk's slice of the array becomes the chunk's run, and nothing outside it changes. The ids and the error are the run's: the first event without user_id, the put that raises, or a raising flush ends the chunk |
| BatchStore.WriteEvent | src/services/analytics_service.py:215-220 | one event: both defaults and a taken put, or the stop of the chunk with its error |
| BatchStore.FillDefaults | src/services/analytics_service.py:216-217 | the timestamp default is set first. The event_id default needs user_id; without it the event keeps only the timestamp default and KeyError is raised. No other array element changes |
| BatchStore.AppendFailed | src/services/analytics_service.py:225-230 | `failed` gains one entry per event of the chunk, as left in place, all with the same error text |
| BatchStore.ChunkLayout | src/services/analytics_service.py:208-210 | `range(0, n, 25)` visits chunk starts 0, 25, 50, …. The chunks are non-empty, at most 25 long, adjacent, and the last ends at n |
| BatchStore.ThirtyEventsTwoChunks | src/services/analytics_service.py:208-210 | 30 events are written as two chunks, `[0, 25)` and `[25, 30)` |
| BatchStore.ChunkOf | src/services/analytics_service.py:210 | a chunk is a non-empty slice of at most 25 events |
| BatchStore.Stamped | src/services/analytics_service.py:216 | the timestamp is set only when absent, to the clock's ISO text; no field the event had changes |
| BatchStore.Filled | src/services/analytics_service.py:216-217 | both defaults: an absent timestamp becomes the clock's text and an absent event_id becomes `<user_id>_<seconds>`; existing values are kept |
| BatchStore.FirstWithoutUserId | src/services/analytics_service.py:217 | the first event of a chunk without user_id; all events before it have one |
| BatchStore.RunChunk | src/services/analytics_service.py:212-230 | a chunk's run has one event per chunk event and one id per event before the stop; it has no error only if no stop occurred |
| BatchStore.ChunkRunShape | src/services/analytics_service.py:214-220 | every event of a run keeps its fields. The ids are the event_ids of the first events, in order, and a run without error records every event |
| BatchStore.ChunkStep | src/services/analytics_service.py:214-220 | the loop meets each event before the stop in turn. An event without user_id stops the chunk: KeyError `'user_id'` is raised inside the writer's block after the event's timestamp is set. A raising put stops it with the put's message, and any other event is taken |
| BatchStore.ChunkError | src/services/analytics_service.py:213-229 | the exception that ends a chunk: none only when every put is taken and the flush succeeds. Leaving the batch writer flushes the puts taken so far even after an exception inside the block, and whenever that flush raises, its exception replaces the one raised inside |
| BatchStore.MissingUserIdStop | src/services/analytics_service.py:213-229 | a chunk stopped by an event without user_id reports the exit flush's message when puts were taken before it and the flush raises, and the KeyError `'user_id'` otherwise |
| BatchStore.ChunkFailureOverlap | src/services/analytics_service.py:212-230 | a write failing at position k records the first k ids in `successful`, and also every event of the chunk in `failed` with the write's message |
| BatchStore.CleanChunk | src/services/analytics_service.py:214-220 | a chunk whose events all have user_id and whose write is taken records every event_id in input order and fails nothing |
| BatchStore.NoStop | src/services/analytics_service.py:213-225 | a chunk whose loop meets no stop raises nothing inside the writer's block |
| BatchStore.ChunkRuns | src/services/analytics_service.py:209-210 | one run per chunk of the batch |
| BatchStore.JoinedCounts | src/services/analytics_service.py:204-230 | after c chunks the results cover Covered(c) events; neither list is longer than that, and together they hold at least that many entries |
| BatchStore.JoinedReported | src/services/analytics_service.py:212-230 | after c chunks every event written so far has its event_id in `successful` or is itself in `failed` |
| BatchStore.ReportedAfterRun | src/services/analytics_service.py:219-230 | a chunk's taken events are reported by their ids and, when the chunk fails, all of its events are reported in `failed`; earlier reports stay |
| BatchStore.JoinedPrefix | src/services/analytics_service.py:204-230 | later chunks only append to the events, `successful` and `failed` |
| BatchStore.JoinedEventAt | src/services/analytics_service.py:209-217 | event q of chunk k lands at batch position 25·k + q |
| BatchStore.JoinedClean | src/services/analytics_service.py:214-220 | when no chunk fails, `failed` is empty and `successful` holds every event's event_id, position by position |
| BatchStore.FailedCountIsFailingChunks | src/services/analytics_service.py:225-230 | `len(failed)` is the total size of the failing chunks |
| BatchStore.BatchReportsEveryEvent | src/services/analytics_service.py:202-235 | the batch never raises. Every event, as left in place, has its event_id in `successful` or is itself in `failed`. Neither list is longer than the batch, and together they hold at least one entry per event |
| BatchStore.BatchOnlyFillsMetadata | src/services/analytics_service.py:216-217 | every event ends with at most a timestamp and an event_id added, and keeps every field it had |
| BatchStore.BatchEventAt | src/services/analytics_service.py:209-217 | event q of chunk k afterwards is that event as its chunk's run left it |
| BatchStore.BatchFailedCount | src/services/analytics_service.py:225-235 | the returned `failed` has one entry per event of every chunk whose write failed |
| BatchStore.CleanBatch | src/services/analytics_service.py:204-235 | when every event has user_id and every write is taken, `failed` is empty and `successful` holds every event's id in input order, each event filled in place |
| BatchStore.SecondChunkFails | src/services/analytics_service.py:208-230 | with 30 events, the first chunk taken and the second failing at k: `successful` holds 25 + k ids and `failed` the 5 events of the second chunk with the message |
| ApiHandler.CreateEvent | src/handlers/api_handler.py:42-76 | the handler's loop and in-place metadata give exactly `CreateEventResponse` |
| ApiHandler.CreateEventResponse | src/handlers/api_handler.py:44-76 | 400 exactly when a required field is missing, naming the first one. Otherwise 500 exactly when the store raises, with `{error: str(e)}`, and 200 exactly when it succeeds, with a body of exactly status "success", the event_id and message "Event created successfully" |
| ApiHandler.FirstMissing | src/handlers/api_handler.py:50-53 | the first of the required fields that the body lacks, in order; none exactly when all are present |
| ApiHandler.WithMetadata | src/handlers/api_handler.py:56-57 | timestamp and event_id are overwritten unconditionally, the event_id with `<user_id>_<seconds>`; every other field is kept |
| ApiHandler.ValidationOrder | src/handlers/api_handler.py:50-53 | without user_id the answer names user_id; event_type is named only when user_id is present |
| ApiHandler.CreatedEventId | src/handlers/api_handler.py:56-71 | the returned event_id is the one stored, synthesized even when the client sent one, and it starts with `user_id + "_"` |
| ApiHandler.CreateEventExample | src/handlers/api_handler.py:42-71 | `{user_id: "u1", event_type: "click"}` answers 200 with an id starting "u1_" |
| ApiHandler.ErrorResponse | src/handlers/api_handler.py:73-76 | the failure envelope is `{"error": message}` alone, with the given status |
| ApiHandler.GetEventResponse | src/handlers/api_handler.py:79-93 | 404 "Event not found" exactly when the item is absent or empty; the item unchanged with 200 otherwise; 500 with the service's text when the read raises |
| ApiHandler.AnalyticsParams | src/handlers/api_handler.py:102-107 | each parameter is taken from the query string when given, otherwise its default: page_views, a week ago, today, day |
| ApiHandler.GetAnalyticsResponse | src/handlers/api_handler.py:96-129 | the chosen metric, dates and group_by are echoed with the data; 500 exactly when the query raises |
| ApiHandler.AnalyticsDefaults | src/handlers/api_handler.py:104-107 | without parameters: metric page_views, group_by day, the last week |
| ApiHandler.ExecuteQueryResponse | src/handlers/api_handler.py:149-172 | 400 exactly when sql is missing. Otherwise 200 exactly when the query succeeds, with its execution id and one JSON object per record, and 500 with the query's error text when it fails |
| ApiHandler.QueryValidatedFirst | src/handlers/api_handler.py:156-157 | without sql the answer does not depend on any answer of the query service |
| ApiHandler.UserEventsLimit | src/handlers/api_handler.py:180-181 | limit 100 when absent, otherwise `int()` of the text; a non-numeric text gives the ValueError text |
| ApiHandler.GetUserEventsResponse | src/handlers/api_handler.py:175-193 | 200 exactly when the limit parses and the index query succeeds, with user_id, `count == len(events)` and the events. Otherwise 500 with `{error: str(e)}`: the ValueError text of a bad limit, or "Failed to get user events: " and the query's text |
| ApiHandler.UserEventsDefaultLimit | src/handlers/api_handler.py:180-189 | without a limit parameter the index is queried with limit 100, and the count is the number of events returned |
| ApiHandler.EventList | src/handlers/api_handler.py:227-230 | the request's events, one object per list element, in order |
| ApiHandler.CreateBatchEventsResponse | src/handlers/api_handler.py:217-243 | 400 exactly when events is missing. Otherwise 200 with `processed == len(successful)`, `failed == len(failed)` and the two lists |
| ApiHandler.BatchCountsCoverRequest | src/handlers/api_handler.py:230-239 | processed and failed each lie between 0 and the number of events in the request, and together they are at least that number |
| Base.NatToStringRoundTrip | src/services/analytics_service.py:50 | the digits `str()` gives a non-negative int denote that int |
| Base.IntToStringRoundTrip | src/handlers/api_handler.py:181 | `int(str(i)) == i` for every int |
| Base.Render | src/handlers/api_handler.py:57 | an f-string renders a string as itself and an int as text that `int()` reads back |

## Left out

- Every boto3 call (put_item, get_item, query, batch_writer, put_object, start_query_execution, get_query_execution, get_query_results) is an oracle parameter. Request shapes such as IndexName, KeyConditionExpression, MaxResults=1000 and the output location are not modelled.
- The ordering and `Limit` behaviour of the user-events index query are promised by DynamoDB, not by this code. The model passes the limit through and returns the Items as given.
- `time.sleep(1)` between polls is not modelled: timing has no effect on the result.
- `datetime.now()` readings are parameters. The batch reads the clock twice per event: once for the timestamp default and once for the event_id default. Each batch position gets one `Instant`, whose ISO text stands for the first reading and whose seconds stand for the second; the model does not tie the two together. create_event also reads twice, and gets two `Instant`s.
- The batch writer's internals are not modelled: automatic flushes every 25 puts, and the re-sending of unprocessed items. The `ChunkWrite` oracle names the call that raises: one put, or the flush on leaving the writer.
- `datetime.fromisoformat` is a parameter too: its parsed date, or none when it raises.
- `timedelta` and `strftime` for the analytics date defaults are given as the texts `weekAgo` and `today`.
- `json.dumps`, `DecimalEncoder` and the archive object's body are not modelled. Only the bucket, the key and the content type of the put are.
- Logging, tracing, metrics, the route resolver and `lambda_handler` are not modelled. `metrics.add_metric` is assumed not to raise; if it did, the handlers would answer 500.
- health_check, get_realtime_metrics and get_aggregation are not modelled: the last two only call `aggregation_service`, which is not part of this model.
- Base.Render: `str()` of a list or dict (Python's repr) is a fixed marker, not the full repr. The same goes for the escaping in the ValueError text of `int()`.
- Base.ParseInt: `int()` also accepts surrounding whitespace and digit-group underscores; the model accepts only an optional sign followed by ASCII digits.
- ApiHandler.UserEventsLimit: inherits both gaps above. A limit such as `" 7"` or `"1_0"` reads as an error in the model, though `int()` accepts it. A limit text holding quotes or backslashes appears unescaped in the model's ValueError text.
- Base.Json has no fractional numbers. An event field such as `1.5`, and a float user_id rendered into a synthesized id, cannot be represented.
- AthenaResults.ParsedRows: a record is a `map`, so the order of its keys is lost. The source's dict keeps the header's column order, and that order shows when the records are serialised.
- BatchStore.WriteChunk: the per-event archive write (line 223) is not recorded. It swallows its own exceptions, so it changes neither list nor any event.
- BatchStore.StoreEventsBatch: the same dict appearing twice in the list (aliasing) is not modelled; each array element is updated on its own.
- ApiHandler.CreateBatchEventsResponse: requires `events` to be a list of objects. In the source, an element that is not an object fails at `.get` on line 216 with an AttributeError such as `'int' object has no attribute 'get'`. That error is caught per chunk (lines 225-230), so its chunk goes to `failed`, later chunks are still written, and the handler answers 200. Other values of `events` behave differently:
  - a string is cut into one-character elements, which fail the same way;
  - None, a number or a boolean raise at `len()` and give 500;
  - a non-empty object raises at the slice and gives 500, and an empty one gives 200 with nothing processed.

  The model represents none of these inputs.
- Request bodies that are not JSON objects are not modelled: every handler takes an `Object`.
- ApiHandler.ExecuteQueryResponse: the `results` default of `result.get("results", [])` is never used, since a successful query always carries results.
- AnalyticsService.GroupItems: `_group_by_hour`, `_group_by_week` and `_group_by_month` return their input, so no regrouping is modelled.
- AnalyticsService.ArchiveRequest: the archive's key is built from the event_id's `str()`, which for list or dict ids is only the marker above.
