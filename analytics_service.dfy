/** The single-event paths of AnalyticsService: storing an event with its
    best-effort archive copy, the reads, and the analytics query with its
    group_by dispatch. The key-value store and the object store are oracles:
    each call's outcome is a parameter. */
module AnalyticsService {
  import opened Base

  const EventsBucket := "serverless-analytics-data-lake"
  const ArchiveContentType := "application/json"

  const StoreErrorPrefix := "Failed to store event: "
  const GetEventErrorPrefix := "Failed to get event: "
  const UserEventsErrorPrefix := "Failed to get user events: "
  const AnalyticsErrorPrefix := "Failed to get analytics: "

  /** str() of the KeyError raised when an event has no event_id. */
  const MissingEventId := "'event_id'"

  /** The calendar date datetime.fromisoformat reads from a timestamp. */
  datatype Date = Date(year: nat, month: nat, day: nat)

  /** A put_object call on the archive bucket (the body, json.dumps of the
      event, is not modelled). */
  datatype ObjectPut = ObjectPut(bucket: string, key: string, contentType: string)

  // ---------------------------------------------------------------------------
  // Archive key

  /** The `:02d` format of a non-negative int: at least two digits, zero-padded. */
  function Pad2(n: nat): (s: string)
    ensures IsDigits(s) && DigitsValue(s) == n
    ensures n < 100 ==> |s| == 2
    ensures n >= 10 ==> s == NatToString(n)
  {
    NatToStringRoundTrip(n);
    if n < 10 then
      var s := "0" + NatToString(n);
      assert s[..|s| - 1] == "0";
      s
    else NatToString(n)
  }

  /** The object key of an archived event, partitioned by date. */
  function ArchiveKey(d: Date, eventId: Json): (key: string)
  {
    "events/year=" + NatToString(d.year) + "/month=" + Pad2(d.month) +
    "/day=" + Pad2(d.day) + "/" + Render(eventId) + ".json"
  }

  /** The year, month and day fields of an archive key read back as numbers:
      month and day are two zero-padded digits for every calendar date. */
  lemma ArchiveKeyFields(d: Date, eventId: Json)
    requires 1 <= d.month <= 12 && 1 <= d.day <= 31
    ensures var key := ArchiveKey(d, eventId);
      var y := |NatToString(d.year)|;
      && key[..12] == "events/year="
      && IsDigits(key[12..12 + y]) && DigitsValue(key[12..12 + y]) == d.year
      && key[12 + y..19 + y] == "/month="
      && IsDigits(key[19 + y..21 + y]) && DigitsValue(key[19 + y..21 + y]) == d.month
      && key[21 + y..26 + y] == "/day="
      && IsDigits(key[26 + y..28 + y]) && DigitsValue(key[26 + y..28 + y]) == d.day
      && key[28 + y..29 + y] == "/"
      && key[29 + y..|key| - 5] == Render(eventId)
      && key[|key| - 5..] == ".json"
  {
    NatToStringRoundTrip(d.year);
    KeyLayout(NatToString(d.year), Pad2(d.month), Pad2(d.day), Render(eventId));
  }

  /** Where each piece of an archive key sits, for pieces of any text. */
  lemma KeyLayout(year: string, mm: string, dd: string, id: string)
    requires |mm| == 2 && |dd| == 2
    ensures var key := "events/year=" + year + "/month=" + mm + "/day=" + dd + "/" + id + ".json";
      var y := |year|;
      && key[..12] == "events/year="
      && key[12..12 + y] == year
      && key[12 + y..19 + y] == "/month="
      && key[19 + y..21 + y] == mm
      && key[21 + y..26 + y] == "/day="
      && key[26 + y..28 + y] == dd
      && key[28 + y..29 + y] == "/"
      && key[29 + y..|key| - 5] == id
      && key[|key| - 5..] == ".json"
  {
    var p1 := "events/year=";
    var p2 := p1 + year;
    var p3 := p2 + "/month=";
    var p4 := p3 + mm;
    var p5 := p4 + "/day=";
    var p6 := p5 + dd;
    var p7 := p6 + "/";
    var p8 := p7 + id;
    var key := p8 + ".json";
    Split(key, p8, ".json");
    Split(key, p7, id);
    Split(key, p6, "/");
    Split(key, p5, dd);
    Split(key, p4, "/day=");
    Split(key, p3, mm);
    Split(key, p2, "/month=");
    Split(key, p1, year);
    Split(key, [], p1);
  }

  /** A text that starts with `pre + piece` has `piece` right after `pre`. */
  lemma Split(key: string, pre: string, piece: string)
    requires |pre + piece| <= |key| && key[..|pre + piece|] == pre + piece
    ensures key[..|pre|] == pre && key[|pre|..|pre| + |piece|] == piece
  {
    assert key[|pre|..|pre| + |piece|] == (pre + piece)[|pre|..];
  }

  /** The archive write _store_event_to_s3 attempts: none when the event
      has no timestamp, the timestamp does not parse (`parsed` is what
      datetime.fromisoformat answers for it) or the event has no event_id,
      since each of those raises before put_object and is swallowed. */
  function ArchiveRequest(e: Object, parsed: Option<Date>): (put: Option<ObjectPut>)
    ensures put.Some? <==> "timestamp" in e && parsed.Some? && "event_id" in e
    ensures put.Some? ==> put.value.bucket == EventsBucket && put.value.contentType == ArchiveContentType
    ensures put.Some? ==> put.value.key == ArchiveKey(parsed.value, e["event_id"])
  {
    if "timestamp" !in e then None
    else match parsed
      case None => None
      case Some(d) =>
        if "event_id" !in e then None
        else Some(ObjectPut(EventsBucket, ArchiveKey(d, e["event_id"]), ArchiveContentType))
  }

  // ---------------------------------------------------------------------------
  // store_event

  datatype Receipt = Receipt(status: string, eventId: Json)

  /** What store_event does: the archive write it attempts, and its result. */
  datatype StoreCall = StoreCall(archived: Option<ObjectPut>, result: Result<Receipt>)

  /** Writes `e` to the events table (`put` is that write's outcome), then
      attempts the archive copy, whose outcome `archive` is swallowed. */
  function StoreEvent(e: Object, put: Outcome, parsed: Option<Date>, archive: Outcome): (call: StoreCall)
    ensures call.result.Ok? <==> put.Done? && "event_id" in e
    ensures call.result.Ok? ==> call.result.value == Receipt("success", e["event_id"])
    ensures put.Raised? ==> call.archived.None? && call.result == Err(StoreErrorPrefix + put.message)
    ensures put.Done? ==> call.archived == ArchiveRequest(e, parsed)
    ensures put.Done? && "event_id" !in e ==> call.result == Err(StoreErrorPrefix + MissingEventId)
  {
    match put
    case Raised(m) => StoreCall(None, Err(StoreErrorPrefix + m))
    case Done =>
      var archived := ArchiveRequest(e, parsed);
      if "event_id" in e then StoreCall(archived, Ok(Receipt("success", e["event_id"])))
      else StoreCall(archived, Err(StoreErrorPrefix + MissingEventId))
  }

  /** The result of store_event depends only on the events-table write: the
      archive write's outcome and whether the timestamp parses change nothing. */
  lemma StoreResultIgnoresArchive(e: Object, put: Outcome, parsed1: Option<Date>, parsed2: Option<Date>,
                                  archive1: Outcome, archive2: Outcome)
    ensures StoreEvent(e, put, parsed1, archive1).result == StoreEvent(e, put, parsed2, archive2).result
    ensures StoreEvent(e, put, parsed1, archive1).archived == StoreEvent(e, put, parsed1, archive2).archived
  {
  }

  // ---------------------------------------------------------------------------
  // Reads

  /** get_item's Item, or None when the table has none. */
  function GetEvent(response: Result<Option<Object>>): (r: Result<Option<Object>>)
    ensures response.Ok? ==> r == response
    ensures response.Err? ==> r == Err(GetEventErrorPrefix + response.message)
  {
    match response
    case Ok(item) => Ok(item)
    case Err(m) => Err(GetEventErrorPrefix + m)
  }

  /** The Items of the user's index query, or none when the answer has no Items. */
  function GetUserEvents(response: Result<Option<seq<Object>>>): (r: Result<seq<Object>>)
    ensures response.Ok? && response.value.Some? ==> r == Ok(response.value.value)
    ensures response.Ok? && response.value.None? ==> r == Ok([])
    ensures response.Err? ==> r == Err(UserEventsErrorPrefix + response.message)
  {
    match response
    case Ok(items) => Ok(if items.Some? then items.value else [])
    case Err(m) => Err(UserEventsErrorPrefix + m)
  }

  function GroupByHour(items: seq<Object>): seq<Object> { items }
  function GroupByWeek(items: seq<Object>): seq<Object> { items }
  function GroupByMonth(items: seq<Object>): seq<Object> { items }

  /** The group_by dispatch: hour, week and month go to their grouping
      helpers, day and every other value keep the items. */
  function GroupItems(groupBy: string, items: seq<Object>): (r: seq<Object>)
    ensures r == items
  {
    if groupBy == "hour" then GroupByHour(items)
    else if groupBy == "day" then items
    else if groupBy == "week" then GroupByWeek(items)
    else if groupBy == "month" then GroupByMonth(items)
    else items
  }

  /** The aggregation items of the metric's date range, in the order the
      table returns them, grouped by `groupBy`. */
  function GetAnalytics(groupBy: string, response: Result<Option<seq<Object>>>): (r: Result<seq<Object>>)
    ensures response.Ok? ==> r == Ok(if response.value.Some? then response.value.value else [])
    ensures response.Err? ==> r == Err(AnalyticsErrorPrefix + response.message)
  {
    match response
    case Err(m) => Err(AnalyticsErrorPrefix + m)
    case Ok(items) => Ok(GroupItems(groupBy, if items.Some? then items.value else []))
  }
}
