/** The REST handlers: each turns a request and the service's answer into a
    JSON body and an HTTP status. A missing required field is answered with
    400 before the service is called, an absent event with 404, and any
    exception the service raises with 500 and its text under "error". */
module ApiHandler {
  import opened Base
  import AnalyticsService
  import AthenaResults
  import AthenaQuery
  import BatchStore

  /** A handler's answer. A handler that returns a bare dict answers 200. */
  datatype Response = Response(body: Json, status: int)

  const Ok200 := 200
  const BadRequest400 := 400
  const NotFound404 := 404
  const ServerError500 := 500

  const MissingFieldPrefix := "Missing required field: "
  const EventNotFound := "Event not found"
  const RequiredFields: seq<string> := ["user_id", "event_type"]
  const DefaultMetric := "page_views"
  const DefaultGroupBy := "day"
  const DefaultLimit := 100

  /** The envelope of every failure: `{"error": message}`. */
  function ErrorResponse(message: string, status: int): (r: Response)
    ensures r.body.JObject? && r.body.fields.Keys == {"error"}
    ensures r.body.fields["error"] == JString(message) && r.status == status
  {
    Response(JObject(map["error" := JString(message)]), status)
  }

  /** `query_string_parameters or {}`: no parameters read as none. */
  function Params(query: Option<map<string, string>>): map<string, string> {
    if query.Some? then query.value else map[]
  }

  function ObjectsJson(items: seq<Object>): (j: Json)
    ensures j.JArray? && |j.items| == |items|
    ensures forall i :: 0 <= i < |items| ==> j.items[i] == JObject(items[i])
  {
    JArray(seq(|items|, i requires 0 <= i < |items| => JObject(items[i])))
  }

  /** A parsed row of the data lake as a JSON object of strings. */
  function RecordJson(rec: AthenaResults.Record): Json {
    JObject(map k | k in rec :: JString(rec[k]))
  }

  // ---------------------------------------------------------------------------
  // POST /events

  /** The first of `fields` the body lacks, checked in order. */
  function FirstMissing(body: Object, fields: seq<string>): (m: Option<string>)
    ensures m.None? <==> forall i :: 0 <= i < |fields| ==> fields[i] in body
    ensures m.Some? ==>
      exists i :: 0 <= i < |fields| && fields[i] == m.value && fields[i] !in body
        && forall j :: 0 <= j < i ==> fields[j] in body
  {
    if fields == [] then None
    else if fields[0] !in body then Some(fields[0])
    else
      var rest := FirstMissing(body, fields[1..]);
      if rest.Some? then
        ghost var i :| 0 <= i < |fields[1..]| && fields[1..][i] == rest.value
          && fields[1..][i] !in body && forall j :: 0 <= j < i ==> fields[1..][j] in body;
        assert fields[i + 1] == rest.value;
        rest
      else rest
  }

  /** The body with the handler's metadata: the timestamp of the first clock
      reading and an event_id made of the user id and the second reading's
      whole seconds, whatever the client sent for either. */
  function WithMetadata(body: Object, stampNow: Instant, idNow: Instant): (e: Object)
    requires "user_id" in body
    ensures e.Keys == body.Keys + {"timestamp", "event_id"}
    ensures e["timestamp"] == JString(stampNow.iso)
    ensures e["event_id"] == JString(BatchStore.SynthesizedId(body["user_id"], idNow))
    ensures forall k :: k in body && k != "timestamp" && k != "event_id" ==> e[k] == body[k]
  {
    body["timestamp" := JString(stampNow.iso)]["event_id" := JString(BatchStore.SynthesizedId(body["user_id"], idNow))]
  }

  function CreatedBody(eventId: Json): Json {
    JObject(map["status" := JString("success"), "event_id" := eventId,
                "message" := JString("Event created successfully")])
  }

  /** What POST /events answers: 400 naming the first missing required
      field; otherwise the event with its metadata is stored, and a raised
      store gives 500 while a stored event gives its id. */
  function CreateEventResponse(body: Object, stampNow: Instant, idNow: Instant,
                               put: Outcome, parsed: Option<AnalyticsService.Date>, archive: Outcome): (r: Response)
    ensures r.status == BadRequest400 <==> FirstMissing(body, RequiredFields).Some?
    ensures r.status == ServerError500 <==> FirstMissing(body, RequiredFields).None? && put.Raised?
    ensures r.status == Ok200 <==> FirstMissing(body, RequiredFields).None? && put.Done?
    ensures r.status == BadRequest400 ==>
      r == ErrorResponse(MissingFieldPrefix + FirstMissing(body, RequiredFields).value, BadRequest400)
    ensures r.status == ServerError500 ==>
      r == ErrorResponse(AnalyticsService.StoreErrorPrefix + put.message, ServerError500)
    ensures r.status == Ok200 ==>
      && r.body.JObject? && r.body.fields.Keys == {"status", "event_id", "message"}
      && r.body.fields["status"] == JString("success")
      && r.body.fields["message"] == JString("Event created successfully")
  {
    match FirstMissing(body, RequiredFields)
    case Some(field) => ErrorResponse(MissingFieldPrefix + field, BadRequest400)
    case None =>
      assert RequiredFields[0] == "user_id";
      var event := WithMetadata(body, stampNow, idNow);
      var call := AnalyticsService.StoreEvent(event, put, parsed, archive);
      match call.result
      case Err(m) => ErrorResponse(m, ServerError500)
      case Ok(_) => Response(CreatedBody(event["event_id"]), Ok200)
  }

  /** The handler: checks the required fields one after another, writes the
      metadata into the request's dict, stores it and answers. */
  method CreateEvent(body: Object, stampNow: Instant, idNow: Instant,
                     put: Outcome, parsed: Option<AnalyticsService.Date>, archive: Outcome)
    returns (r: Response)
    ensures r == CreateEventResponse(body, stampNow, idNow, put, parsed, archive)
  {
    var fields := RequiredFields;
    var i := 0;
    while i < |fields|
      invariant 0 <= i <= |fields|
      invariant FirstMissing(body, fields) == FirstMissing(body, fields[i..])
    {
      assert fields[i..][1..] == fields[i + 1..];
      if fields[i] !in body {
        return ErrorResponse(MissingFieldPrefix + fields[i], BadRequest400);
      }
      i := i + 1;
    }
    assert "user_id" in body by {
      assert FirstMissing(body, fields[i..]) == None;
      assert fields[0] == "user_id";
    }
    var event := body;
    event := event["timestamp" := JString(stampNow.iso)];
    event := event["event_id" := JString(BatchStore.SynthesizedId(event["user_id"], idNow))];
    var result := AnalyticsService.StoreEvent(event, put, parsed, archive).result;
    if result.Err? {
      return ErrorResponse(result.message, ServerError500);
    }
    return Response(CreatedBody(event["event_id"]), Ok200);
  }

  /** user_id is checked first: without it the answer names user_id whatever
      else is missing; event_type is named only when user_id is present. */
  lemma ValidationOrder(body: Object, stampNow: Instant, idNow: Instant,
                        put: Outcome, parsed: Option<AnalyticsService.Date>, archive: Outcome)
    ensures var r := CreateEventResponse(body, stampNow, idNow, put, parsed, archive);
      && ("user_id" !in body ==> r == ErrorResponse("Missing required field: user_id", 400))
      && ("user_id" in body && "event_type" !in body ==>
            r == ErrorResponse("Missing required field: event_type", 400))
  {
    assert RequiredFields[1..] == ["event_type"];
    if "user_id" in body && "event_type" !in body {
      assert FirstMissing(body, RequiredFields) == FirstMissing(body, ["event_type"]) == Some("event_type");
    }
    assert MissingFieldPrefix + "user_id" == "Missing required field: user_id";
    assert MissingFieldPrefix + "event_type" == "Missing required field: event_type";
  }

  /** A created event answers with the id that was stored, which is the
      synthesized `<user_id>_<seconds>` even when the client sent an id,
      and the stored timestamp is the handler's own. */
  lemma CreatedEventId(body: Object, stampNow: Instant, idNow: Instant,
                       put: Outcome, parsed: Option<AnalyticsService.Date>, archive: Outcome)
    requires "user_id" in body && "event_type" in body && put.Done?
    ensures var r := CreateEventResponse(body, stampNow, idNow, put, parsed, archive);
      var stored := WithMetadata(body, stampNow, idNow);
      var id := BatchStore.SynthesizedId(body["user_id"], idNow);
      && r.status == 200 && r.body.JObject? && "event_id" in r.body.fields
      && r.body.fields["event_id"] == stored["event_id"] == JString(id)
      && AnalyticsService.StoreEvent(stored, put, parsed, archive).result
         == Ok(AnalyticsService.Receipt("success", JString(id)))
      && stored["timestamp"] == JString(stampNow.iso)
      && id[..|Render(body["user_id"]) + "_"|] == Render(body["user_id"]) + "_"
  {
    assert RequiredFields == ["user_id", "event_type"];
    assert FirstMissing(body, RequiredFields).None?;
  }

  /** POST /events with `{"user_id": "u1", "event_type": "click"}` answers
      200 with an event_id that starts with "u1_". */
  lemma CreateEventExample(stampNow: Instant, idNow: Instant, parsed: Option<AnalyticsService.Date>, archive: Outcome)
    ensures var body := map["user_id" := JString("u1"), "event_type" := JString("click")];
      var r := CreateEventResponse(body, stampNow, idNow, Done, parsed, archive);
      && r.status == 200 && r.body.JObject? && "event_id" in r.body.fields
      && r.body.fields["event_id"].JString? && |r.body.fields["event_id"].s| >= 3
      && r.body.fields["event_id"].s[..3] == "u1_"
  {
    var body := map["user_id" := JString("u1"), "event_type" := JString("click")];
    CreatedEventId(body, stampNow, idNow, Done, parsed, archive);
  }

  // ---------------------------------------------------------------------------
  // GET /events/{event_id}

  /** The stored item unchanged, 404 when there is none or it is empty (a
      falsy dict), 500 with the service's text when the read raises. */
  function GetEventResponse(response: Result<Option<Object>>): (r: Response)
    ensures r.status == NotFound404 <==> response.Ok? && (response.value.None? || response.value.value == map[])
    ensures r.status == NotFound404 ==> r == ErrorResponse(EventNotFound, NotFound404)
    ensures r.status == Ok200 <==> response.Ok? && response.value.Some? && response.value.value != map[]
    ensures r.status == Ok200 ==> r.body == JObject(response.value.value)
    ensures r.status == ServerError500 <==> response.Err?
    ensures r.status == ServerError500 ==>
      r == ErrorResponse(AnalyticsService.GetEventErrorPrefix + response.message, ServerError500)
  {
    match AnalyticsService.GetEvent(response)
    case Err(m) => ErrorResponse(m, ServerError500)
    case Ok(item) =>
      if item.None? || item.value == map[] then ErrorResponse(EventNotFound, NotFound404)
      else Response(JObject(item.value), Ok200)
  }

  // ---------------------------------------------------------------------------
  // GET /analytics

  /** The query parameters with their defaults: the metric, the date range
      (a week back from today unless given; the clock's dates are
      parameters), and the grouping. */
  datatype AnalyticsQuery = AnalyticsQuery(metric: string, start: string, end: string, groupBy: string)

  function AnalyticsParams(query: Option<map<string, string>>, weekAgo: string, today: string): (q: AnalyticsQuery)
    ensures var p := Params(query);
      && q.metric == (if "metric" in p then p["metric"] else DefaultMetric)
      && q.start == (if "start" in p then p["start"] else weekAgo)
      && q.end == (if "end" in p then p["end"] else today)
      && q.groupBy == (if "group_by" in p then p["group_by"] else DefaultGroupBy)
  {
    var p := Params(query);
    AnalyticsQuery(Lookup(p, "metric", DefaultMetric), Lookup(p, "start", weekAgo),
                   Lookup(p, "end", today), Lookup(p, "group_by", DefaultGroupBy))
  }

  /** The chosen parameters echoed back with the items, or 500. `response`
      is the aggregations table's answer to the query for those parameters. */
  function GetAnalyticsResponse(query: Option<map<string, string>>, weekAgo: string, today: string,
                                response: Result<Option<seq<Object>>>): (r: Response)
    ensures response.Err? <==> r.status == ServerError500
    ensures response.Err? ==>
      r == ErrorResponse(AnalyticsService.AnalyticsErrorPrefix + response.message, ServerError500)
    ensures response.Ok? ==>
      var q := AnalyticsParams(query, weekAgo, today);
      && r.status == Ok200 && r.body.JObject?
      && r.body.fields.Keys == {"metric", "start_date", "end_date", "group_by", "data"}
      && r.body.fields["metric"] == JString(q.metric) && r.body.fields["group_by"] == JString(q.groupBy)
      && r.body.fields["start_date"] == JString(q.start) && r.body.fields["end_date"] == JString(q.end)
      && r.body.fields["data"] == ObjectsJson(if response.value.Some? then response.value.value else [])
  {
    var q := AnalyticsParams(query, weekAgo, today);
    match AnalyticsService.GetAnalytics(q.groupBy, response)
    case Err(m) => ErrorResponse(m, ServerError500)
    case Ok(items) =>
      Response(JObject(map["metric" := JString(q.metric), "start_date" := JString(q.start),
                           "end_date" := JString(q.end), "group_by" := JString(q.groupBy),
                           "data" := ObjectsJson(items)]), Ok200)
  }

  /** With no parameters the metric is page_views, grouped by day, over the
      last week. */
  lemma AnalyticsDefaults(weekAgo: string, today: string, items: seq<Object>)
    ensures var r := GetAnalyticsResponse(None, weekAgo, today, Ok(Some(items)));
      && r.status == 200
      && r.body.fields["metric"] == JString("page_views") && r.body.fields["group_by"] == JString("day")
      && r.body.fields["start_date"] == JString(weekAgo) && r.body.fields["end_date"] == JString(today)
  {
  }

  // ---------------------------------------------------------------------------
  // POST /query

  /** 400 without `sql`; otherwise the query is run against the service's
      answers `b`, and its id and records are returned, or 500. */
  function ExecuteQueryResponse(body: Object, b: AthenaQuery.QueryBackend): (r: Response)
    ensures "sql" !in body <==> r.status == BadRequest400
    ensures "sql" !in body ==> r == ErrorResponse(MissingFieldPrefix + "sql", BadRequest400)
    ensures "sql" in body ==> (r.status == Ok200 <==> AthenaQuery.QueryOutcome(b).Ok?)
    ensures "sql" in body && AthenaQuery.QueryOutcome(b).Err? ==>
      r == ErrorResponse(AthenaQuery.QueryOutcome(b).message, ServerError500)
    ensures "sql" in body && AthenaQuery.QueryOutcome(b).Ok? ==>
      var q := AthenaQuery.QueryOutcome(b).value;
      && r.body.JObject? && r.body.fields.Keys == {"status", "query_execution_id", "results"}
      && r.body.fields["status"] == JString("success")
      && r.body.fields["query_execution_id"] == JString(q.queryExecutionId)
      && r.body.fields["results"].JArray? && |r.body.fields["results"].items| == |q.results|
      && forall i :: 0 <= i < |q.results| ==> r.body.fields["results"].items[i] == RecordJson(q.results[i])
  {
    if "sql" !in body then ErrorResponse(MissingFieldPrefix + "sql", BadRequest400)
    else match AthenaQuery.QueryOutcome(b)
      case Err(m) => ErrorResponse(m, ServerError500)
      case Ok(q) =>
        var results := JArray(seq(|q.results|, i requires 0 <= i < |q.results| => RecordJson(q.results[i])));
        Response(JObject(map["status" := JString("success"), "query_execution_id" := JString(q.queryExecutionId),
                             "results" := results]), Ok200)
  }

  /** A query request without `sql` is answered before the service is
      called: no answer of the service changes it. */
  lemma QueryValidatedFirst(body: Object, b1: AthenaQuery.QueryBackend, b2: AthenaQuery.QueryBackend)
    requires "sql" !in body
    ensures ExecuteQueryResponse(body, b1) == ExecuteQueryResponse(body, b2)
  {
  }

  // ---------------------------------------------------------------------------
  // GET /users/{user_id}/events

  /** `int(params.get("limit", 100))`: 100 when absent, the parsed text
      otherwise, and the ValueError's text when it does not parse. */
  function UserEventsLimit(query: Option<map<string, string>>): (l: Result<int>)
    ensures "limit" !in Params(query) ==> l == Ok(DefaultLimit)
    ensures "limit" in Params(query) && ParseInt(Params(query)["limit"]).Some? ==>
      l == Ok(ParseInt(Params(query)["limit"]).value)
    ensures "limit" in Params(query) && ParseInt(Params(query)["limit"]).None? ==>
      l == Err("invalid literal for int() with base 10: '" + Params(query)["limit"] + "'")
  {
    var p := Params(query);
    if "limit" !in p then Ok(DefaultLimit)
    else match ParseInt(p["limit"])
      case Some(n) => Ok(n)
      case None => Err("invalid literal for int() with base 10: '" + p["limit"] + "'")
  }

  /** The user's events with their count, or 500. `queryFor` is the index
      query's answer for each limit the handler may pass. */
  function GetUserEventsResponse(userId: string, query: Option<map<string, string>>,
                                 queryFor: int -> Result<Option<seq<Object>>>): (r: Response)
    ensures r.status == Ok200 || r.status == ServerError500
    ensures r.status == Ok200 ==> UserEventsLimit(query).Ok?
    ensures r.status == Ok200 ==>
      var events := AnalyticsService.GetUserEvents(queryFor(UserEventsLimit(query).value));
      && events.Ok? && r.body.JObject?
      && r.body.fields.Keys == {"user_id", "count", "events"}
      && r.body.fields["user_id"] == JString(userId)
      && r.body.fields["count"] == JInt(|events.value|)
      && r.body.fields["events"] == ObjectsJson(events.value)
    ensures UserEventsLimit(query).Err? ==> r == ErrorResponse(UserEventsLimit(query).message, ServerError500)
    ensures UserEventsLimit(query).Ok? ==>
      var events := AnalyticsService.GetUserEvents(queryFor(UserEventsLimit(query).value));
      && (r.status == Ok200 <==> events.Ok?)
      && (events.Err? ==> r == ErrorResponse(events.message, ServerError500))
  {
    match UserEventsLimit(query)
    case Err(m) => ErrorResponse(m, ServerError500)
    case Ok(limit) =>
      match AnalyticsService.GetUserEvents(queryFor(limit))
      case Err(m) => ErrorResponse(m, ServerError500)
      case Ok(events) =>
        Response(JObject(map["user_id" := JString(userId), "count" := JInt(|events|),
                             "events" := ObjectsJson(events)]), Ok200)
  }

  /** Without a limit parameter the index is queried with limit 100, and the
      count is the number of events returned. */
  lemma UserEventsDefaultLimit(userId: string, queryFor: int -> Result<Option<seq<Object>>>, events: seq<Object>)
    requires queryFor(100) == Ok(Some(events))
    ensures var r := GetUserEventsResponse(userId, None, queryFor);
      && r.status == 200 && r.body.fields["count"] == JInt(|events|)
      && r.body.fields["events"] == ObjectsJson(events)
  {
  }

  // ---------------------------------------------------------------------------
  // POST /batch/events

  predicate IsEventList(v: Json) {
    v.JArray? && forall i :: 0 <= i < |v.items| ==> v.items[i].JObject?
  }

  function EventList(v: Json): (events: seq<Object>)
    requires IsEventList(v)
    ensures |events| == |v.items| && forall i :: 0 <= i < |events| ==> JObject(events[i]) == v.items[i]
  {
    seq(|v.items|, i requires 0 <= i < |v.items| => v.items[i].fields)
  }

  function FailedJson(f: BatchStore.FailedEvent): Json {
    JObject(map["event" := JObject(f.event), "error" := JString(f.error)])
  }

  function BatchResultJson(r: BatchStore.BatchResult): Json {
    JObject(map["successful" := JArray(r.successful),
                "failed" := JArray(seq(|r.failed|, i requires 0 <= i < |r.failed| => FailedJson(r.failed[i])))])
  }

  /** 400 without `events`; otherwise the batch is stored and the counts of
      the two lists are returned with the lists. The batch itself never
      raises. */
  function CreateBatchEventsResponse(body: Object, clock: nat -> Instant, writes: nat -> BatchStore.ChunkWrite): (r: Response)
    requires "events" in body ==> IsEventList(body["events"])
    ensures "events" !in body <==> r.status == BadRequest400
    ensures "events" !in body ==> r == ErrorResponse(MissingFieldPrefix + "events", BadRequest400)
    ensures "events" in body ==>
      var result := BatchStore.BatchOutcome(EventList(body["events"]), clock, writes);
      && r.status == Ok200 && r.body.JObject?
      && r.body.fields.Keys == {"status", "processed", "failed", "results"}
      && r.body.fields["status"] == JString("success")
      && r.body.fields["processed"] == JInt(|result.successful|)
      && r.body.fields["failed"] == JInt(|result.failed|)
      && r.body.fields["results"] == BatchResultJson(result)
  {
    if "events" !in body then ErrorResponse(MissingFieldPrefix + "events", BadRequest400)
    else
      var result := BatchStore.BatchOutcome(EventList(body["events"]), clock, writes);
      Response(JObject(map["status" := JString("success"), "processed" := JInt(|result.successful|),
                           "failed" := JInt(|result.failed|), "results" := BatchResultJson(result)]), Ok200)
  }

  /** Neither count exceeds the number of events in the request, and
      together they are at least that number. */
  lemma BatchCountsCoverRequest(body: Object, clock: nat -> Instant, writes: nat -> BatchStore.ChunkWrite)
    requires "events" in body && IsEventList(body["events"])
    ensures var r := CreateBatchEventsResponse(body, clock, writes);
      var n := |body["events"].items|;
      && r.body.fields["processed"].JInt? && r.body.fields["failed"].JInt?
      && 0 <= r.body.fields["processed"].i <= n && 0 <= r.body.fields["failed"].i <= n
      && n <= r.body.fields["processed"].i + r.body.fields["failed"].i
  {
    BatchStore.BatchReportsEveryEvent(EventList(body["events"]), clock, writes);
  }
}
