/** Batch ingestion (AnalyticsService.store_events_batch): the events are
    written in chunks of 25; each event gets a timestamp and an event_id
    when it has none, in place; a chunk whose write raises puts every one
    of its events into `failed` with the same error, and later chunks are
    still written. */
module BatchStore {
  import opened Base

  const BatchSize: nat := 25

  /** str() of the KeyError raised by an event without user_id. */
  const MissingUserId := "'user_id'"

  /** What the batch writer does with one chunk: it takes every put and
      flushes, or the put of event `position` raises (`position` at or past
      the chunk's end: the flush on leaving the writer raises, whenever it
      has puts to send). A put the loop never reaches does not raise. */
  datatype ChunkWrite = Flushed | FailsAt(position: nat, message: string)

  datatype FailedEvent = FailedEvent(event: Object, error: string)

  /** One chunk after its write: its events as left in place, the event ids
      it appended to `successful`, and the error that ended it, if any. */
  datatype ChunkRun = ChunkRun(events: seq<Object>, ids: seq<Json>, error: Option<string>)

  /** The whole batch: the events as left in place, and the two lists returned. */
  datatype BatchResult = BatchResult(events: seq<Object>, successful: seq<Json>, failed: seq<FailedEvent>)

  // ---------------------------------------------------------------------------
  // Chunks

  function NumChunks(n: nat): nat {
    (n + BatchSize - 1) / BatchSize
  }

  function ChunkStart(c: nat): nat {
    c * BatchSize
  }

  /** How many events the first c chunks hold. */
  function Covered(c: nat, n: nat): nat {
    if ChunkStart(c) < n then ChunkStart(c) else n
  }

  /** The end of chunk c: `events[i:i + 25]` stops at the list's end. */
  function ChunkEnd(c: nat, n: nat): nat {
    Covered(c + 1, n)
  }

  /** range(0, n, 25) visits ChunkStart(c) for every c < NumChunks(n), and
      the chunks are non-empty, at most 25 long, adjacent, and end at n. */
  lemma ChunkLayout(n: nat, c: nat)
    ensures c < NumChunks(n) <==> ChunkStart(c) < n
    ensures c < NumChunks(n) ==> 0 < ChunkEnd(c, n) - ChunkStart(c) <= BatchSize
    ensures c + 1 < NumChunks(n) ==> ChunkEnd(c, n) == ChunkStart(c + 1)
    ensures c + 1 == NumChunks(n) ==> ChunkEnd(c, n) == n
    ensures Covered(NumChunks(n), n) == n
    ensures ChunkStart(c + 1) == ChunkStart(c) + BatchSize
  {
  }

  /** Thirty events are written as two chunks, of 25 and 5. */
  lemma ThirtyEventsTwoChunks()
    ensures NumChunks(30) == 2
    ensures ChunkStart(0) == 0 && ChunkEnd(0, 30) == 25
    ensures ChunkStart(1) == 25 && ChunkEnd(1, 30) == 30
  {
  }

  function ChunkOf(events: seq<Object>, c: nat): (chunk: seq<Object>)
    requires c < NumChunks(|events|)
    ensures 0 < |chunk| <= BatchSize
    ensures ChunkStart(c) < ChunkEnd(c, |events|) <= |events| && |chunk| == ChunkEnd(c, |events|) - ChunkStart(c)
  {
    ChunkLayout(|events|, c);
    events[ChunkStart(c)..ChunkEnd(c, |events|)]
  }

  // ---------------------------------------------------------------------------
  // One event

  /** `event["timestamp"] = event.get("timestamp", now)`. */
  function Stamped(e: Object, now: Instant): (s: Object)
    ensures OnlyFillsMetadata(e, s) && "timestamp" in s
    ensures "timestamp" !in e ==> s["timestamp"] == JString(now.iso)
  {
    e["timestamp" := if "timestamp" in e then e["timestamp"] else JString(now.iso)]
  }

  /** The id made for an event without one: user id, "_", epoch seconds. */
  function SynthesizedId(userId: Json, now: Instant): string {
    Render(userId) + "_" + IntToString(now.epochSeconds)
  }

  /** `after` is `before` with at most a timestamp and an event_id added:
      no field the event had is changed. */
  predicate OnlyFillsMetadata(before: Object, after: Object) {
    && before.Keys <= after.Keys <= before.Keys + {"timestamp", "event_id"}
    && forall k :: k in before ==> after[k] == before[k]
  }

  /** An event after both defaults, which needs its user_id. */
  function Filled(e: Object, now: Instant): (f: Object)
    requires "user_id" in e
    ensures OnlyFillsMetadata(e, f)
    ensures "timestamp" in f && "event_id" in f
    ensures "timestamp" !in e ==> f["timestamp"] == JString(now.iso)
    ensures "event_id" !in e ==> f["event_id"] == JString(SynthesizedId(e["user_id"], now))
  {
    WithEventId(Stamped(e, now), now)
  }

  /** `event["event_id"] = event.get("event_id", <synthesized id>)`. */
  function WithEventId(e: Object, now: Instant): Object
    requires "user_id" in e
  {
    e["event_id" := if "event_id" in e then e["event_id"] else JString(SynthesizedId(e["user_id"], now))]
  }

  // ---------------------------------------------------------------------------
  // One chunk

  /** The position of the first event of the chunk without user_id. */
  function FirstWithoutUserId(chunk: seq<Object>): (q: nat)
    ensures q <= |chunk|
    ensures forall p :: 0 <= p < q ==> "user_id" in chunk[p]
    ensures q < |chunk| ==> "user_id" !in chunk[q]
  {
    FirstWithoutUserIdFrom(chunk, 0)
  }

  function FirstWithoutUserIdFrom(chunk: seq<Object>, i: nat): (q: nat)
    requires i <= |chunk|
    ensures i <= q <= |chunk|
    ensures forall p :: i <= p < q ==> "user_id" in chunk[p]
    ensures q < |chunk| ==> "user_id" !in chunk[q]
    decreases |chunk| - i
  {
    if i == |chunk| || "user_id" !in chunk[i] then i else FirstWithoutUserIdFrom(chunk, i + 1)
  }

  /** The position where the chunk's loop stops: the first event without
      user_id, or the put that raises, whichever comes first; |chunk| when
      every put is taken. */
  function StopAt(chunk: seq<Object>, write: ChunkWrite): (s: nat)
    ensures s <= FirstWithoutUserId(chunk) <= |chunk|
  {
    var q := FirstWithoutUserId(chunk);
    match write
    case Flushed => q
    case FailsAt(k, _) => if k < q then k else q
  }

  /** The event at the stop: an event without user_id has only its
      timestamp filled; an event whose put raised has both defaults. */
  function AtStop(chunk: seq<Object>, clock: nat -> Instant, offset: nat, write: ChunkWrite): Object
    requires StopAt(chunk, write) < |chunk|
  {
    var s := StopAt(chunk, write);
    if s < FirstWithoutUserId(chunk) then Filled(chunk[s], clock(offset + s))
    else Stamped(chunk[s], clock(offset + s))
  }

  /** Event p of a chunk after its write: both defaults before the stop,
      as AtStop says at the stop, untouched after it. */
  function EventAfterRun(chunk: seq<Object>, clock: nat -> Instant, offset: nat, write: ChunkWrite, p: nat): Object
    requires p < |chunk|
  {
    var s := StopAt(chunk, write);
    if p < s then Filled(chunk[p], clock(offset + p))
    else if p == s then AtStop(chunk, clock, offset, write)
    else chunk[p]
  }

  /** The exception raised inside the batch writer's block: the put that
      raises, the KeyError of the first event without user_id, or none. */
  function StopError(chunk: seq<Object>, write: ChunkWrite): Option<string> {
    var q := FirstWithoutUserId(chunk);
    if write.FailsAt? && write.position < q then Some(write.message)
    else if q < |chunk| then Some(MissingUserId)
    else None
  }

  /** The exception that leaves the block and ends the chunk. Leaving the
      writer flushes the puts taken so far, if any, even when the block
      raised; an exception of that flush replaces the one raised inside. */
  function ChunkError(chunk: seq<Object>, write: ChunkWrite): (error: Option<string>)
    ensures error.None? ==> StopAt(chunk, write) == |chunk| && (write.Flushed? || |chunk| == 0)
    ensures write.FailsAt? && write.position >= |chunk| && StopAt(chunk, write) > 0 ==> error == Some(write.message)
  {
    if write.FailsAt? && write.position >= |chunk| && FirstWithoutUserId(chunk) > 0 then Some(write.message)
    else StopError(chunk, write)
  }

  /** What writing one chunk does: every event as EventAfterRun says, the
      ids of the events before the stop, and the error that ends the chunk. */
  function RunChunk(chunk: seq<Object>, clock: nat -> Instant, offset: nat, write: ChunkWrite): (run: ChunkRun)
    ensures |run.events| == |chunk| && |run.ids| == StopAt(chunk, write)
    ensures run.error.None? ==> StopAt(chunk, write) == |chunk|
  {
    var s := StopAt(chunk, write);
    ChunkRun(
      seq(|chunk|, p requires 0 <= p < |chunk| => EventAfterRun(chunk, clock, offset, write, p)),
      seq(s, p requires 0 <= p < s => Filled(chunk[p], clock(offset + p))["event_id"]),
      ChunkError(chunk, write))
  }

  /** One entry per event, in order, all with the same error. */
  function FailedEntries(events: seq<Object>, error: string): (f: seq<FailedEvent>)
    ensures |f| == |events|
    ensures forall p :: 0 <= p < |events| ==> f[p] == FailedEvent(events[p], error)
  {
    seq(|events|, p requires 0 <= p < |events| => FailedEvent(events[p], error))
  }

  /** The entries a chunk adds to `failed`. */
  function ChunkFailures(run: ChunkRun): (f: seq<FailedEvent>)
    ensures |f| == if run.error.Some? then |run.events| else 0
  {
    if run.error.Some? then FailedEntries(run.events, run.error.value) else []
  }

  /** Every event of a chunk keeps its fields; the ids recorded are those
      of the first events, in order; a chunk without an error took every
      event. */
  lemma ChunkRunShape(chunk: seq<Object>, clock: nat -> Instant, offset: nat, write: ChunkWrite)
    ensures var run := RunChunk(chunk, clock, offset, write);
      && |run.events| == |chunk| && |run.ids| <= |chunk|
      && (forall p :: 0 <= p < |chunk| ==> OnlyFillsMetadata(chunk[p], run.events[p]))
      && (forall p :: 0 <= p < |run.ids| ==> "event_id" in run.events[p] && run.ids[p] == run.events[p]["event_id"])
      && (run.error.None? ==> |run.ids| == |chunk|)
  {
    var run := RunChunk(chunk, clock, offset, write);
    forall p | 0 <= p < |chunk|
      ensures OnlyFillsMetadata(chunk[p], run.events[p])
      ensures p < |run.ids| ==> "event_id" in run.events[p] && run.ids[p] == run.events[p]["event_id"]
    {
      RunEventShape(chunk, clock, offset, write, p);
    }
  }

  lemma RunEventShape(chunk: seq<Object>, clock: nat -> Instant, offset: nat, write: ChunkWrite, p: nat)
    requires p < |chunk|
    ensures var run := RunChunk(chunk, clock, offset, write);
      && OnlyFillsMetadata(chunk[p], run.events[p])
      && (p < |run.ids| ==> "event_id" in run.events[p] && run.ids[p] == run.events[p]["event_id"])
  {
    RunEventAt(chunk, clock, offset, write, p);
    var s := StopAt(chunk, write);
    if p < s {
      RunIdAt(chunk, clock, offset, write, p);
      assert EventAfterRun(chunk, clock, offset, write, p) == Filled(chunk[p], clock(offset + p));
    } else if p == s {
      assert EventAfterRun(chunk, clock, offset, write, p) == AtStop(chunk, clock, offset, write);
    }
  }

  /** A chunk whose write fails at position k after k events were taken:
      the first k ids are already recorded as successful, and all of its
      events are recorded as failed with the write's message, so the two
      lists overlap. Chunks of a batch are never empty (ChunkOf). */
  lemma ChunkFailureOverlap(chunk: seq<Object>, clock: nat -> Instant, offset: nat, k: nat, message: string)
    requires forall p :: 0 <= p < |chunk| ==> "user_id" in chunk[p]
    requires k <= |chunk| && 0 < |chunk|
    ensures var run := RunChunk(chunk, clock, offset, FailsAt(k, message));
      && run.error == Some(message)
      && |run.ids| == k
      && (forall p :: 0 <= p < k ==> run.ids[p] == Filled(chunk[p], clock(offset + p))["event_id"])
      && |ChunkFailures(run)| == |chunk|
      && forall p :: 0 <= p < |chunk| ==> ChunkFailures(run)[p] == FailedEvent(run.events[p], message)
  {
    assert FirstWithoutUserId(chunk) == |chunk|;
  }

  /** A chunk whose events all have a user_id and whose write is taken
      records every event as successful, in input order, and fails none. */
  lemma CleanChunk(chunk: seq<Object>, clock: nat -> Instant, offset: nat)
    requires forall p :: 0 <= p < |chunk| ==> "user_id" in chunk[p]
    ensures var run := RunChunk(chunk, clock, offset, Flushed);
      && run.error.None? && ChunkFailures(run) == [] && |run.ids| == |chunk|
      && forall p :: 0 <= p < |chunk| ==>
           run.events[p] == Filled(chunk[p], clock(offset + p)) && run.ids[p] == run.events[p]["event_id"]
  {
    assert FirstWithoutUserId(chunk) == |chunk|;
  }

  /** The chunk's events one at a time, as the loop meets them before the
      stop: an event without user_id is the stop and fails the chunk with
      its KeyError; a put that raises is the stop and fails the chunk with
      its message; any other event is taken. */
  lemma ChunkStep(chunk: seq<Object>, clock: nat -> Instant, offset: nat, write: ChunkWrite, p: nat)
    requires p <= StopAt(chunk, write) && p < |chunk|
    ensures "user_id" !in chunk[p] ==>
      && StopAt(chunk, write) == p && StopError(chunk, write) == Some(MissingUserId)
      && AtStop(chunk, clock, offset, write) == Stamped(chunk[p], clock(offset + p))
    ensures "user_id" in chunk[p] && write.FailsAt? && write.position == p ==>
      && StopAt(chunk, write) == p && StopError(chunk, write) == Some(write.message)
      && AtStop(chunk, clock, offset, write) == Filled(chunk[p], clock(offset + p))
    ensures "user_id" in chunk[p] && !(write.FailsAt? && write.position == p) ==>
      p < StopAt(chunk, write)
  {
  }

  /** Event p of a chunk's run. */
  lemma RunEventAt(chunk: seq<Object>, clock: nat -> Instant, offset: nat, write: ChunkWrite, p: nat)
    requires p < |chunk|
    ensures RunChunk(chunk, clock, offset, write).events[p] == EventAfterRun(chunk, clock, offset, write, p)
  {
  }

  /** The id of each event before the stop is its filled event_id. */
  lemma RunIdAt(chunk: seq<Object>, clock: nat -> Instant, offset: nat, write: ChunkWrite, p: nat)
    requires p < StopAt(chunk, write)
    ensures RunChunk(chunk, clock, offset, write).ids[p] == Filled(chunk[p], clock(offset + p))["event_id"]
  {
  }

  /** A chunk whose loop meets no stop raises nothing inside the block. */
  lemma NoStop(chunk: seq<Object>, write: ChunkWrite)
    requires StopAt(chunk, write) == |chunk|
    ensures StopError(chunk, write) == None
  {
  }

  /** The chunk's error is the exception raised inside the block unless the
      flush on leaving the writer, with StopAt puts to send, raises. */
  lemma LeaveWriter(chunk: seq<Object>, write: ChunkWrite)
    ensures ChunkError(chunk, write) ==
      if write.FailsAt? && write.position >= |chunk| && StopAt(chunk, write) > 0 then Some(write.message)
      else StopError(chunk, write)
  {
  }

  /** A chunk stopped by an event without user_id after some puts were
      taken reports the exit flush's exception when that flush raises, and
      the KeyError otherwise. */
  lemma MissingUserIdStop(chunk: seq<Object>, message: string)
    requires FirstWithoutUserId(chunk) < |chunk|
    ensures ChunkError(chunk, FailsAt(|chunk|, message)) ==
      if FirstWithoutUserId(chunk) > 0 then Some(message) else Some(MissingUserId)
    ensures ChunkError(chunk, Flushed) == Some(MissingUserId)
  {
  }

  // ---------------------------------------------------------------------------
  // The batch

  /** The run of every chunk of the batch, each written on its own with its
      own write outcome. */
  function ChunkRuns(events: seq<Object>, clock: nat -> Instant, writes: nat -> ChunkWrite): (runs: seq<ChunkRun>)
    ensures |runs| == NumChunks(|events|)
  {
    seq(NumChunks(|events|), c requires 0 <= c < NumChunks(|events|) =>
      RunChunk(ChunkOf(events, c), clock, ChunkStart(c), writes(c)))
  }

  /** The first c runs one after another: the events as left in place, the
      ids appended to `successful` and the entries appended to `failed`. */
  function Joined(runs: seq<ChunkRun>, c: nat): BatchResult
    requires c <= |runs|
  {
    if c == 0 then BatchResult([], [], [])
    else
      var prev := Joined(runs, c - 1);
      var run := runs[c - 1];
      BatchResult(prev.events + run.events, prev.successful + run.ids, prev.failed + ChunkFailures(run))
  }

  /** What store_events_batch does with `events`, given the clock for each
      event position (the ISO text of the timestamp default's reading and
      the seconds of the event_id default's reading) and the outcome of each
      chunk's write. */
  function BatchOutcome(events: seq<Object>, clock: nat -> Instant, writes: nat -> ChunkWrite): BatchResult {
    Joined(ChunkRuns(events, clock, writes), NumChunks(|events|))
  }

  /** Run k covers chunk k of a batch of n events: as many events, no more
      ids than events, each id the event_id of its event, and every id when
      the chunk has no error. */
  predicate Covers(run: ChunkRun, n: nat, k: nat) {
    && |run.events| == ChunkEnd(k, n) - ChunkStart(k)
    && |run.ids| <= |run.events|
    && (run.error.None? ==> |run.ids| == |run.events|)
    && forall q :: 0 <= q < |run.ids| ==> "event_id" in run.events[q] && run.ids[q] == run.events[q]["event_id"]
  }

  predicate Laid(runs: seq<ChunkRun>, n: nat) {
    && |runs| == NumChunks(n)
    && forall k :: 0 <= k < |runs| ==> Covers(runs[k], n, k)
  }

  /** Run k has as many events as chunk k. */
  predicate Sized(runs: seq<ChunkRun>, n: nat) {
    && |runs| == NumChunks(n)
    && forall k :: 0 <= k < |runs| ==> |runs[k].events| == ChunkEnd(k, n) - ChunkStart(k)
  }

  /** The first c runs hold the first Covered(c) events. */
  lemma {:induction false} JoinedLength(runs: seq<ChunkRun>, n: nat, c: nat)
    requires Sized(runs, n) && c <= |runs|
    ensures |Joined(runs, c).events| == Covered(c, n)
  {
    if c > 0 {
      var d := c - 1;
      JoinedLength(runs, n, d);
      ChunkLayout(n, d);
      assert Joined(runs, c).events == Joined(runs, d).events + runs[d].events;
    }
  }

  /** Run c is chunk c written with the c-th write outcome. */
  lemma ChunkRunAt(events: seq<Object>, clock: nat -> Instant, writes: nat -> ChunkWrite, c: nat)
    requires c < NumChunks(|events|)
    ensures ChunkRuns(events, clock, writes)[c] == RunChunk(ChunkOf(events, c), clock, ChunkStart(c), writes(c))
  {
  }

  /** Each chunk's run has as many events as the chunk. */
  lemma ChunkRunsSized(events: seq<Object>, clock: nat -> Instant, writes: nat -> ChunkWrite)
    ensures Sized(ChunkRuns(events, clock, writes), |events|)
  {
    var runs := ChunkRuns(events, clock, writes);
    forall k | 0 <= k < |runs|
      ensures |runs[k].events| == ChunkEnd(k, |events|) - ChunkStart(k)
    {
      ChunkRunAt(events, clock, writes, k);
    }
  }

  /** The chunks' runs are laid out over the batch. */
  lemma ChunkRunsLaid(events: seq<Object>, clock: nat -> Instant, writes: nat -> ChunkWrite)
    ensures Sized(ChunkRuns(events, clock, writes), |events|) && Laid(ChunkRuns(events, clock, writes), |events|)
  {
    var runs := ChunkRuns(events, clock, writes);
    forall k | 0 <= k < |runs|
      ensures Covers(runs[k], |events|, k)
    {
      ChunkLayout(|events|, k);
      ChunkRunShape(ChunkOf(events, k), clock, ChunkStart(k), writes(k));
    }
  }

  /** The first c runs hold the first Covered(c) events; neither list is
      longer than that, and together they hold at least that many entries. */
  lemma {:induction false} JoinedCounts(runs: seq<ChunkRun>, n: nat, c: nat)
    requires Laid(runs, n) && c <= |runs|
    ensures var r := Joined(runs, c);
      && |r.events| == Covered(c, n)
      && |r.successful| <= Covered(c, n)
      && |r.failed| <= Covered(c, n)
      && Covered(c, n) <= |r.successful| + |r.failed|
  {
    if c > 0 {
      var d := c - 1;
      JoinedCounts(runs, n, d);
      ChunkLayout(n, d);
      assert Covers(runs[d], n, d);
    }
  }

  /** Event p of a result is reported: its event_id is in `successful`, or
      the event itself is in `failed`. */
  predicate Reported(r: BatchResult, p: nat)
    requires p < |r.events|
  {
    || (exists i :: 0 <= i < |r.successful| && "event_id" in r.events[p] && r.successful[i] == r.events[p]["event_id"])
    || (exists i :: 0 <= i < |r.failed| && r.failed[i].event == r.events[p])
  }

  /** After c chunks every event written so far is reported. */
  lemma {:induction false} JoinedReported(runs: seq<ChunkRun>, n: nat, c: nat)
    requires Laid(runs, n) && c <= |runs|
    ensures forall p :: 0 <= p < |Joined(runs, c).events| ==> Reported(Joined(runs, c), p)
  {
    if c > 0 {
      var d := c - 1;
      JoinedReported(runs, n, d);
      assert Covers(runs[d], n, d);
      forall p | 0 <= p < |Joined(runs, c).events|
        ensures Reported(Joined(runs, c), p)
      {
        ReportedAfterRun(Joined(runs, d), runs[d], Joined(runs, c), p);
      }
    }
  }

  /** Appending a run keeps the earlier events reported and reports the
      run's own: by its id when it was taken, in `failed` otherwise. */
  lemma ReportedAfterRun(prev: BatchResult, run: ChunkRun, next: BatchResult, p: nat)
    requires next == BatchResult(prev.events + run.events, prev.successful + run.ids, prev.failed + ChunkFailures(run))
    requires forall q :: 0 <= q < |prev.events| ==> Reported(prev, q)
    requires |run.ids| <= |run.events| && (run.error.None? ==> |run.ids| == |run.events|)
    requires forall q :: 0 <= q < |run.ids| ==> "event_id" in run.events[q] && run.ids[q] == run.events[q]["event_id"]
    requires p < |next.events|
    ensures Reported(next, p)
  {
    if p < |prev.events| {
      assert next.events[p] == prev.events[p];
      if exists i :: 0 <= i < |prev.successful| && "event_id" in prev.events[p] && prev.successful[i] == prev.events[p]["event_id"] {
        var i :| 0 <= i < |prev.successful| && "event_id" in prev.events[p] && prev.successful[i] == prev.events[p]["event_id"];
        assert next.successful[i] == prev.successful[i];
      } else {
        assert Reported(prev, p);
        var i :| 0 <= i < |prev.failed| && prev.failed[i].event == prev.events[p];
        assert next.failed[i] == prev.failed[i];
      }
    } else {
      var q := p - |prev.events|;
      assert next.events[p] == run.events[q];
      if q < |run.ids| {
        assert next.successful[|prev.successful| + q] == run.ids[q];
      } else {
        assert next.failed[|prev.failed| + q] == ChunkFailures(run)[q];
      }
    }
  }

  /** Joining more runs only appends: the first d runs' results are
      prefixes of the first c runs' results. */
  lemma {:induction false} JoinedPrefix(runs: seq<ChunkRun>, d: nat, c: nat)
    requires d <= c <= |runs|
    ensures Joined(runs, d).events <= Joined(runs, c).events
    ensures Joined(runs, d).successful <= Joined(runs, c).successful
    ensures Joined(runs, d).failed <= Joined(runs, c).failed
  {
    if d < c {
      var e := c - 1;
      JoinedPrefix(runs, d, e);
      var prev, next := Joined(runs, e), Joined(runs, c);
      assert next == BatchResult(prev.events + runs[e].events, prev.successful + runs[e].ids,
                                 prev.failed + ChunkFailures(runs[e]));
      PrefixAppend(Joined(runs, d).events, prev.events, runs[e].events);
      PrefixAppend(Joined(runs, d).successful, prev.successful, runs[e].ids);
      PrefixAppend(Joined(runs, d).failed, prev.failed, ChunkFailures(runs[e]));
    }
  }

  lemma PrefixAppend<T>(a: seq<T>, b: seq<T>, x: seq<T>)
    requires a <= b
    ensures a <= b + x
  {
    assert (b + x)[..|a|] == b[..|a|];
  }

  /** Event q of run k sits at position ChunkStart(k) + q of the joined events. */
  lemma JoinedEventAt(runs: seq<ChunkRun>, n: nat, c: nat, k: nat, q: nat)
    requires Sized(runs, n) && k < c <= |runs| && q < |runs[k].events|
    ensures ChunkStart(k) + q < |Joined(runs, c).events|
    ensures Joined(runs, c).events[ChunkStart(k) + q] == runs[k].events[q]
  {
    var prev := Joined(runs, k);
    var next := Joined(runs, k + 1);
    JoinedLength(runs, n, k);
    ChunkLayout(n, k);
    assert |prev.events| == ChunkStart(k);
    assert next.events == prev.events + runs[k].events;
    assert next.events[ChunkStart(k) + q] == runs[k].events[q];
    JoinedPrefix(runs, k + 1, c);
  }

  /** The total size of the first c chunks whose write failed. */
  function FailingTotal(runs: seq<ChunkRun>, c: nat): nat
    requires c <= |runs|
  {
    if c == 0 then 0
    else FailingTotal(runs, c - 1) + (if runs[c - 1].error.Some? then |runs[c - 1].events| else 0)
  }

  /** `failed` holds one entry per event of each failing chunk. */
  lemma {:induction false} FailedCountIsFailingChunks(runs: seq<ChunkRun>, c: nat)
    requires c <= |runs|
    ensures |Joined(runs, c).failed| == FailingTotal(runs, c)
  {
    if c > 0 {
      var d := c - 1;
      FailedCountIsFailingChunks(runs, d);
    }
  }

  /** When no chunk fails, `failed` is empty and `successful` holds the
      event_id of every event, position by position. */
  lemma {:induction false} JoinedClean(runs: seq<ChunkRun>, n: nat, c: nat)
    requires Laid(runs, n) && c <= |runs|
    requires forall k :: 0 <= k < c ==> runs[k].error.None?
    ensures var r := Joined(runs, c);
      && r.failed == [] && |r.successful| == |r.events|
      && forall p :: 0 <= p < |r.events| ==> "event_id" in r.events[p] && r.successful[p] == r.events[p]["event_id"]
  {
    if c > 0 {
      var d := c - 1;
      JoinedClean(runs, n, d);
      var prev := Joined(runs, d);
      var run := runs[d];
      assert Covers(run, n, d);
      IdsAppend(prev.events, prev.successful, run.events, run.ids);
    }
  }

  /** Two lists of events with their ids, position by position, joined. */
  lemma IdsAppend(e1: seq<Object>, ids1: seq<Json>, e2: seq<Object>, ids2: seq<Json>)
    requires |ids1| == |e1| && forall p :: 0 <= p < |e1| ==> "event_id" in e1[p] && ids1[p] == e1[p]["event_id"]
    requires |ids2| == |e2| && forall p :: 0 <= p < |e2| ==> "event_id" in e2[p] && ids2[p] == e2[p]["event_id"]
    ensures var e, ids := e1 + e2, ids1 + ids2;
      |ids| == |e| && forall p :: 0 <= p < |e| ==> "event_id" in e[p] && ids[p] == e[p]["event_id"]
  {
    var e, ids := e1 + e2, ids1 + ids2;
    forall p | 0 <= p < |e|
      ensures "event_id" in e[p] && ids[p] == e[p]["event_id"]
    {
      if p >= |e1| {
        assert e[p] == e2[p - |e1|] && ids[p] == ids2[p - |e1|];
      }
    }
  }

  /** Lines 216-217 on event j, in place: the timestamp default is set
      first, then the event_id default, whose user_id lookup raises
      KeyError when the event has none, leaving it with the timestamp only. */
  method FillDefaults(events: array<Object>, j: nat, now: Instant) returns (hasUserId: bool)
    requires j < events.Length
    modifies events
    ensures hasUserId == ("user_id" in old(events[j]))
    ensures hasUserId ==> events[j] == Filled(old(events[j]), now)
    ensures !hasUserId ==> events[j] == Stamped(old(events[j]), now)
    ensures forall i :: 0 <= i < events.Length && i != j ==> events[i] == old(events[i])
  {
    var e := Stamped(events[j], now);
    events[j] := e;
    hasUserId := "user_id" in e;
    if hasUserId {
      events[j] := WithEventId(e, now);
    }
  }

  /** One pass of the batch loop: the events of events[lo..hi] are written
      one after another inside the batch writer, each stamped and given an
      id in place and its id recorded; the first event without user_id or
      the first put that raises ends the chunk, and so does a flush that
      raises on leaving the writer. */
  method WriteChunk(events: array<Object>, lo: nat, hi: nat, clock: nat -> Instant, write: ChunkWrite)
    returns (ids: seq<Json>, error: Option<string>)
    requires lo <= hi <= events.Length
    modifies events
    ensures var run := RunChunk(old(events[lo..hi]), clock, lo, write);
      && events[..] == old(events[..lo]) + run.events + old(events[hi..])
      && ids == run.ids && error == run.error
  {
    ghost var before := events[..];
    ghost var chunk := before[lo..hi];
    ids, error := [], None;
    var j := lo;
    while j < hi && error.None?
      invariant lo <= j <= hi && j - lo <= StopAt(chunk, write)
      invariant forall i :: 0 <= i < lo ==> events[i] == before[i]
      invariant forall i :: hi <= i < events.Length ==> events[i] == before[i]
      invariant forall i :: lo <= i < j ==> "user_id" in before[i] && events[i] == Filled(before[i], clock(i))
      invariant |ids| == j - lo && forall i :: lo <= i < j ==> ids[i - lo] == events[i]["event_id"]
      invariant error.None? ==> forall i :: j <= i < hi ==> events[i] == before[i]
      invariant error.Some? ==>
        && j < hi && j - lo == StopAt(chunk, write) && error == StopError(chunk, write)
        && events[j] == AtStop(chunk, clock, lo, write)
        && forall i :: j < i < hi ==> events[i] == before[i]
      decreases hi - j, if error.None? then 1 else 0
    {
      error := WriteEvent(events, lo, hi, j, clock, write, before);
      if error.None? {
        ids := ids + [events[j]["event_id"]];
        j := j + 1;
      }
    }
    ghost var inner := error;
    if write.FailsAt? && write.position >= hi - lo && j > lo {
      // the flush on leaving the batch writer raises
      error := Some(write.message);
    }
    ChunkWritten(events[..], before, lo, hi, j, clock, write, ids, inner, error);
  }

  /** One pass of the chunk loop, on event j: both defaults, then the put
      through the batch writer. The error says where the chunk stops: an
      event without user_id, or the write failing at this event. */
  method WriteEvent(events: array<Object>, lo: nat, hi: nat, j: nat, clock: nat -> Instant, write: ChunkWrite,
                    ghost before: seq<Object>)
    returns (error: Option<string>)
    requires lo <= j < hi <= events.Length == |before|
    requires j - lo <= StopAt(before[lo..hi], write) && events[j] == before[j]
    modifies events
    ensures forall i :: 0 <= i < events.Length && i != j ==> events[i] == old(events[i])
    ensures error.None? ==>
      && j - lo < StopAt(before[lo..hi], write)
      && "user_id" in before[j] && events[j] == Filled(before[j], clock(j))
    ensures error.Some? ==>
      && j - lo == StopAt(before[lo..hi], write) && error == StopError(before[lo..hi], write)
      && events[j] == AtStop(before[lo..hi], clock, lo, write)
  {
    ghost var chunk := before[lo..hi];
    ghost var k := j - lo;
    assert chunk[k] == before[j] && j == lo + k;
    ChunkStep(chunk, clock, lo, write, k);
    var hasUserId := FillDefaults(events, j, clock(j));
    if !hasUserId {
      // the event_id default raises KeyError
      error := Some(MissingUserId);
    } else if write.FailsAt? && write.position == j - lo {
      // put_item raises
      error := Some(write.message);
    } else {
      error := None;
    }
  }

  /** Where the loop of WriteChunk leaves the array and its results: events
      [lo, j) have both defaults and their ids are collected; when the loop
      stopped at j, event j is as AtStop says and `inner` is the exception
      raised inside the block; `error` is what leaving the writer makes of
      it. That is the run of the chunk, whole. */
  lemma ChunkWritten(after: seq<Object>, before: seq<Object>, lo: nat, hi: nat, j: nat,
                     clock: nat -> Instant, write: ChunkWrite, ids: seq<Json>, inner: Option<string>,
                     error: Option<string>)
    requires lo <= j <= hi <= |before| == |after|
    requires j - lo <= StopAt(before[lo..hi], write)
    requires forall i :: 0 <= i < lo ==> after[i] == before[i]
    requires forall i :: hi <= i < |after| ==> after[i] == before[i]
    requires |ids| == j - lo
    requires forall i :: lo <= i < j ==>
      && "user_id" in before[i] && after[i] == Filled(before[i], clock(i))
      && ids[i - lo] == after[i]["event_id"]
    requires j < hi ==>
      && j - lo == StopAt(before[lo..hi], write) && inner == StopError(before[lo..hi], write)
      && after[j] == AtStop(before[lo..hi], clock, lo, write)
      && forall i :: j < i < hi ==> after[i] == before[i]
    requires j == hi ==> inner == None
    requires error == if write.FailsAt? && write.position >= hi - lo && j > lo then Some(write.message) else inner
    ensures var run := RunChunk(before[lo..hi], clock, lo, write);
      after == before[..lo] + run.events + before[hi..] && ids == run.ids && error == run.error
  {
    var chunk := before[lo..hi];
    var run := RunChunk(chunk, clock, lo, write);
    if j == hi {
      NoStop(chunk, write);
    }
    LeaveWriter(chunk, write);
    forall i | lo <= i < hi
      ensures after[i] == run.events[i - lo]
    {
      WrittenEventAt(after[i], before, lo, hi, j, clock, write, i);
    }
    forall t | 0 <= t < |ids|
      ensures ids[t] == run.ids[t]
    {
      RunIdAt(chunk, clock, lo, write, t);
      assert chunk[t] == before[lo + t];
    }
    Assemble(after, before, lo, hi, run.events);
  }

  /** Event i of a chunk after its loop, by where i lies from the stop j. */
  lemma WrittenEventAt(e: Object, before: seq<Object>, lo: nat, hi: nat, j: nat,
                       clock: nat -> Instant, write: ChunkWrite, i: nat)
    requires lo <= i < hi <= |before| && lo <= j
    requires j - lo <= StopAt(before[lo..hi], write)
    requires i < j ==> "user_id" in before[i] && e == Filled(before[i], clock(i))
    requires i == j ==> j - lo == StopAt(before[lo..hi], write) && e == AtStop(before[lo..hi], clock, lo, write)
    requires j < i ==> j - lo == StopAt(before[lo..hi], write) && e == before[i]
    ensures e == RunChunk(before[lo..hi], clock, lo, write).events[i - lo]
  {
    var chunk := before[lo..hi];
    var p := i - lo;
    RunEventAt(chunk, clock, lo, write, p);
    assert chunk[p] == before[i] && lo + p == i;
  }

  /** A sequence that agrees with `before` outside [lo, hi) and with `mid`
      inside it is `before` with that slice replaced by `mid`. */
  lemma Assemble<T>(all: seq<T>, before: seq<T>, lo: nat, hi: nat, mid: seq<T>)
    requires lo <= hi <= |before| == |all| && |mid| == hi - lo
    requires forall i :: 0 <= i < lo ==> all[i] == before[i]
    requires forall i :: lo <= i < hi ==> all[i] == mid[i - lo]
    requires forall i :: hi <= i < |all| ==> all[i] == before[i]
    ensures all == before[..lo] + mid + before[hi..]
  {
  }

  /** The batch loop. The events are updated in place in the array. */
  method StoreEventsBatch(events: array<Object>, clock: nat -> Instant, writes: nat -> ChunkWrite)
    returns (successful: seq<Json>, failed: seq<FailedEvent>)
    modifies events
    ensures var r := BatchOutcome(old(events[..]), clock, writes);
      events[..] == r.events && successful == r.successful && failed == r.failed
  {
    ghost var original := events[..];
    ghost var runs := ChunkRuns(original, clock, writes);
    var n := events.Length;
    successful, failed := [], [];
    var i := 0;
    var c: nat := 0;
    ChunkLayout(n, 0);
    while i < n
      invariant AfterChunks(events[..], successful, failed, original, clock, writes, c, i)
    {
      i, successful, failed := StoreChunk(events, original, clock, writes, c, i, successful, failed);
      c := c + 1;
    }
    ChunkLayout(n, c);
    assert c == NumChunks(n) && original[i..] == [];
  }

  /** The state of the batch loop once the first c chunks, which end at i,
      are written: the array holds their runs' events and then the
      untouched input, and the two lists hold their ids and failures. */
  ghost predicate AfterChunks(cur: seq<Object>, successful: seq<Json>, failed: seq<FailedEvent>,
                              original: seq<Object>, clock: nat -> Instant, writes: nat -> ChunkWrite, c: nat, i: nat)
  {
    var n := |original|;
    && c <= NumChunks(n) && i == Covered(c, n) && (i < n <==> c < NumChunks(n))
    && var done := Joined(ChunkRuns(original, clock, writes), c);
    && cur == done.events + original[i..] && successful == done.successful && failed == done.failed
  }

  /** One pass of the batch loop: chunk c, which starts at i, is written in
      place, its ids are appended to `successful` and, when it fails, its
      events to `failed`; `next` is where the following chunk starts. */
  method StoreChunk(events: array<Object>, ghost original: seq<Object>, clock: nat -> Instant, writes: nat -> ChunkWrite,
                    c: nat, i: nat, successful: seq<Json>, failed: seq<FailedEvent>)
    returns (next: nat, successful': seq<Json>, failed': seq<FailedEvent>)
    requires |original| == events.Length && i < events.Length
    requires AfterChunks(events[..], successful, failed, original, clock, writes, c, i)
    modifies events
    ensures AfterChunks(events[..], successful', failed', original, clock, writes, c + 1, next)
  {
    var n := events.Length;
    var hi := if i + BatchSize < n then i + BatchSize else n;
    ghost var cur := events[..];
    var ids, error := WriteChunk(events, i, hi, clock, writes(c));
    successful' := successful + ids;
    failed' := failed;
    if error.Some? {
      failed' := AppendFailed(events, i, hi, error.value, failed);
    }
    ChunkStored(original, clock, writes, c, i, cur, events[..], successful, failed, ids, error);
    next := hi;
  }

  /** Writing chunk c where the batch loop finds it takes the loop's state
      after c chunks to its state after c + 1: `cur` is the array before the
      write, and `after`, `ids` and `error` are what the write leaves. */
  lemma ChunkStored(original: seq<Object>, clock: nat -> Instant, writes: nat -> ChunkWrite, c: nat, i: nat,
                    cur: seq<Object>, after: seq<Object>, successful: seq<Json>, failed: seq<FailedEvent>,
                    ids: seq<Json>, error: Option<string>)
    requires i < |original| == |cur|
    requires AfterChunks(cur, successful, failed, original, clock, writes, c, i)
    requires var hi := if i + BatchSize < |original| then i + BatchSize else |original|;
      var run := RunChunk(cur[i..hi], clock, i, writes(c));
      && after == cur[..i] + run.events + cur[hi..] && ids == run.ids && error == run.error
    ensures var hi := if i + BatchSize < |original| then i + BatchSize else |original|;
      && |after| == |original|
      && AfterChunks(after, successful + ids,
                     if error.Some? then failed + FailedEntries(after[i..hi], error.value) else failed,
                     original, clock, writes, c + 1, hi)
  {
    var n := |original|;
    var runs := ChunkRuns(original, clock, writes);
    var hi := if i + BatchSize < n then i + BatchSize else n;
    JoinedStep(original, clock, writes, c);
    var done := Joined(runs, c).events;
    var run := runs[c];
    ChunkSlice(original, done, cur, c);
    assert RunChunk(cur[i..hi], clock, i, writes(c)) == run;
    Extend(Joined(runs, c), run, Joined(runs, c + 1), original[hi..], after);
  }

  /** Appending one run to a joined result, with the array's untouched
      rest after it. */
  lemma Extend(done: BatchResult, run: ChunkRun, next: BatchResult, rest: seq<Object>, after: seq<Object>)
    requires next == BatchResult(done.events + run.events, done.successful + run.ids, done.failed + ChunkFailures(run))
    requires after == done.events + run.events + rest
    ensures after == next.events + rest
    ensures after[|done.events|..|done.events| + |run.events|] == run.events
    ensures run.error.None? ==> next.failed == done.failed
    ensures run.error.Some? ==> next.failed == done.failed + FailedEntries(run.events, run.error.value)
  {
    Splice(after, next.events, rest, |next.events|);
    Splice(next.events, done.events, run.events, |next.events|);
  }

  /** The joined result of the first c + 1 runs of a batch is that of the
      first c followed by run c, chunk c written in place; the first c runs
      hold the first Covered(c) events. */
  lemma JoinedStep(original: seq<Object>, clock: nat -> Instant, writes: nat -> ChunkWrite, c: nat)
    requires c < NumChunks(|original|)
    ensures var runs := ChunkRuns(original, clock, writes);
      var done := Joined(runs, c);
      && runs[c] == RunChunk(ChunkOf(original, c), clock, ChunkStart(c), writes(c))
      && |done.events| == Covered(c, |original|)
      && Joined(runs, c + 1) == BatchResult(done.events + runs[c].events, done.successful + runs[c].ids,
                                            done.failed + ChunkFailures(runs[c]))
  {
    var runs := ChunkRuns(original, clock, writes);
    ChunkRunsSized(original, clock, writes);
    JoinedLength(runs, |original|, c);
    ChunkRunAt(original, clock, writes, c);
  }

  /** The array the batch loop finds before chunk c, cut at the chunk's
      bounds: the c runs' events, chunk c of the input, the rest of it. */
  lemma ChunkSlice(original: seq<Object>, done: seq<Object>, cur: seq<Object>, c: nat)
    requires c < NumChunks(|original|) && |done| == Covered(c, |original|)
    requires cur == done + original[|done|..]
    ensures var n := |original|;
      var i := Covered(c, n);
      var hi := if i + BatchSize < n then i + BatchSize else n;
      && i == ChunkStart(c) && hi == ChunkEnd(c, n) && hi == Covered(c + 1, n)
      && (hi < n <==> c + 1 < NumChunks(n))
      && cur[..i] == done && cur[i..hi] == ChunkOf(original, c) && cur[hi..] == original[hi..]
  {
    var n := |original|;
    var i := Covered(c, n);
    var hi := if i + BatchSize < n then i + BatchSize else n;
    ChunkLayout(n, c);
    ChunkLayout(n, c + 1);
    Splice(cur, done, original[i..], hi);
    assert original[i..][..hi - i] == original[i..hi];
    assert original[i..][hi - i..] == original[hi..];
  }

  /** Cutting `whole == front + back` at |front| and at a later `hi`. */
  lemma Splice<T>(whole: seq<T>, front: seq<T>, back: seq<T>, hi: nat)
    requires whole == front + back && |front| <= hi <= |whole|
    ensures whole[..|front|] == front && whole[|front|..] == back
    ensures whole[|front|..hi] == back[..hi - |front|] && whole[hi..] == back[hi - |front|..]
  {
  }

  /** The except branch: every event of the chunk, as the loop left it, is
      appended to `failed` with the chunk's error. */
  method AppendFailed(events: array<Object>, lo: nat, hi: nat, error: string, failed: seq<FailedEvent>)
    returns (r: seq<FailedEvent>)
    requires lo <= hi <= events.Length
    ensures r == failed + FailedEntries(events[lo..hi], error)
  {
    ghost var entries := FailedEntries(events[lo..hi], error);
    r := failed;
    var k := lo;
    while k < hi
      invariant lo <= k <= hi
      invariant r == failed + entries[..k - lo]
    {
      assert entries[..k + 1 - lo] == entries[..k - lo] + [FailedEvent(events[k], error)];
      r := r + [FailedEvent(events[k], error)];
      k := k + 1;
    }
    assert entries[..hi - lo] == entries;
  }

  // ---------------------------------------------------------------------------
  // Properties of the batch

  /** Every event is reported: its event_id is in `successful` or the event
      is in `failed`. Neither list is longer than the batch, and together
      they hold at least one entry per event. */
  lemma BatchReportsEveryEvent(events: seq<Object>, clock: nat -> Instant, writes: nat -> ChunkWrite)
    ensures var r := BatchOutcome(events, clock, writes);
      && |r.events| == |events|
      && |r.successful| <= |events| && |r.failed| <= |events|
      && |events| <= |r.successful| + |r.failed|
      && forall p :: 0 <= p < |events| ==> Reported(r, p)
  {
    var runs := ChunkRuns(events, clock, writes);
    ChunkRunsLaid(events, clock, writes);
    ChunkLayout(|events|, 0);
    JoinedCounts(runs, |events|, NumChunks(|events|));
    JoinedReported(runs, |events|, NumChunks(|events|));
  }

  /** No field a client sent is changed: every event ends with at most a
      timestamp and an event_id added. */
  lemma BatchOnlyFillsMetadata(events: seq<Object>, clock: nat -> Instant, writes: nat -> ChunkWrite)
    ensures var r := BatchOutcome(events, clock, writes);
      && |r.events| == |events|
      && forall p :: 0 <= p < |events| ==> OnlyFillsMetadata(events[p], r.events[p])
  {
    BatchReportsEveryEvent(events, clock, writes);
    forall p | 0 <= p < |events|
      ensures OnlyFillsMetadata(events[p], BatchOutcome(events, clock, writes).events[p])
    {
      EventOnlyFillsMetadata(events, clock, writes, p);
    }
  }

  lemma EventOnlyFillsMetadata(events: seq<Object>, clock: nat -> Instant, writes: nat -> ChunkWrite, p: nat)
    requires p < |events|
    ensures p < |BatchOutcome(events, clock, writes).events|
    ensures OnlyFillsMetadata(events[p], BatchOutcome(events, clock, writes).events[p])
  {
    var k, q := ChunkIndex(events, p);
    BatchEventAt(events, clock, writes, k, q);
    ChunkRunShape(ChunkOf(events, k), clock, ChunkStart(k), writes(k));
  }

  /** Event p of the batch is event p % 25 of chunk p / 25. */
  lemma ChunkIndex(events: seq<Object>, p: nat) returns (k: nat, q: nat)
    requires p < |events|
    ensures k == p / BatchSize && k < NumChunks(|events|) && ChunkStart(k) + q == p
    ensures q < |ChunkOf(events, k)| && ChunkOf(events, k)[q] == events[p]
  {
    k, q := p / BatchSize, p % BatchSize;
    ChunkLayout(|events|, k);
    assert ChunkStart(k) + q == p;
    assert ChunkOf(events, k) == events[ChunkStart(k)..ChunkEnd(k, |events|)];
  }

  /** Event q of chunk k after the batch is event q of that chunk's run. */
  lemma BatchEventAt(events: seq<Object>, clock: nat -> Instant, writes: nat -> ChunkWrite, k: nat, q: nat)
    requires k < NumChunks(|events|) && q < |ChunkOf(events, k)|
    ensures ChunkStart(k) + q < |BatchOutcome(events, clock, writes).events|
    ensures BatchOutcome(events, clock, writes).events[ChunkStart(k) + q]
         == RunChunk(ChunkOf(events, k), clock, ChunkStart(k), writes(k)).events[q]
  {
    var n := |events|;
    var runs := ChunkRuns(events, clock, writes);
    ChunkRunsSized(events, clock, writes);
    ChunkRunAt(events, clock, writes, k);
    JoinedEventAt(runs, n, NumChunks(n), k, q);
  }

  /** `failed` has one entry per event of every chunk whose write failed. */
  lemma BatchFailedCount(events: seq<Object>, clock: nat -> Instant, writes: nat -> ChunkWrite)
    ensures var r := BatchOutcome(events, clock, writes);
      |r.failed| == FailingTotal(ChunkRuns(events, clock, writes), NumChunks(|events|))
  {
    FailedCountIsFailingChunks(ChunkRuns(events, clock, writes), NumChunks(|events|));
  }

  /** When every event has a user_id and every chunk's write is taken,
      nothing fails and `successful` holds every event's id in input order,
      each event having both defaults filled. */
  lemma CleanBatch(events: seq<Object>, clock: nat -> Instant, writes: nat -> ChunkWrite)
    requires forall p :: 0 <= p < |events| ==> "user_id" in events[p]
    requires forall k :: 0 <= k < NumChunks(|events|) ==> writes(k) == Flushed
    ensures var r := BatchOutcome(events, clock, writes);
      && r.failed == [] && |r.successful| == |r.events| == |events|
      && forall p :: 0 <= p < |events| ==>
           r.events[p] == Filled(events[p], clock(p)) && r.successful[p] == r.events[p]["event_id"]
  {
    var n := |events|;
    var runs := ChunkRuns(events, clock, writes);
    ChunkRunsLaid(events, clock, writes);
    forall k | 0 <= k < NumChunks(n)
      ensures runs[k].error.None?
    {
      ChunkHasUserIds(events, k);
      CleanChunk(ChunkOf(events, k), clock, ChunkStart(k));
    }
    JoinedClean(runs, n, NumChunks(n));
    BatchReportsEveryEvent(events, clock, writes);
    forall p | 0 <= p < n
      ensures BatchOutcome(events, clock, writes).events[p] == Filled(events[p], clock(p))
    {
      CleanEventAt(events, clock, writes, p);
    }
  }

  /** Thirty events, all with a user_id: the first chunk of 25 is taken
      and the put of event k of the second chunk of 5 raises. The 25 ids
      of the first chunk and the k ids taken before the raise are
      successful, and all five events of the second chunk are failed with
      the put's message. */
  lemma SecondChunkFails(events: seq<Object>, clock: nat -> Instant, writes: nat -> ChunkWrite, k: nat, message: string)
    requires |events| == 30 && forall p :: 0 <= p < 30 ==> "user_id" in events[p]
    requires writes(0) == Flushed && writes(1) == FailsAt(k, message) && k <= 5
    ensures var r := BatchOutcome(events, clock, writes);
      && |r.events| == 30 && |r.successful| == 25 + k && |r.failed| == 5
      && (forall p :: 0 <= p < 25 + k ==> r.successful[p] == Filled(events[p], clock(p))["event_id"])
      && forall p :: 0 <= p < 5 ==> r.failed[p] == FailedEvent(r.events[25 + p], message)
  {
    var runs := ChunkRuns(events, clock, writes);
    ThirtyEventsTwoChunks();
    ChunkRunAt(events, clock, writes, 0);
    ChunkRunAt(events, clock, writes, 1);
    ChunkHasUserIds(events, 0);
    ChunkHasUserIds(events, 1);
    var first := ChunkOf(events, 0);
    var second := ChunkOf(events, 1);
    assert first == events[..25] && second == events[25..];
    CleanChunk(first, clock, 0);
    ChunkFailureOverlap(second, clock, 25, k, message);
    JoinedTwo(runs);
    assert ChunkFailures(runs[0]) + ChunkFailures(runs[1]) == ChunkFailures(runs[1]);
  }

  /** The joined result of two runs. */
  lemma JoinedTwo(runs: seq<ChunkRun>)
    requires 2 <= |runs|
    ensures Joined(runs, 2) == BatchResult(runs[0].events + runs[1].events, runs[0].ids + runs[1].ids,
                                           ChunkFailures(runs[0]) + ChunkFailures(runs[1]))
  {
    var zero := Joined(runs, 0);
    var one := Joined(runs, 1);
    assert zero == BatchResult([], [], []);
    assert one == BatchResult(zero.events + runs[0].events, zero.successful + runs[0].ids,
                              zero.failed + ChunkFailures(runs[0]));
    assert one == BatchResult(runs[0].events, runs[0].ids, ChunkFailures(runs[0]));
    assert Joined(runs, 2) == BatchResult(one.events + runs[1].events, one.successful + runs[1].ids,
                                          one.failed + ChunkFailures(runs[1]));
  }

  /** Every event of a chunk has a user_id when every event of the batch has one. */
  lemma ChunkHasUserIds(events: seq<Object>, k: nat)
    requires forall p :: 0 <= p < |events| ==> "user_id" in events[p]
    requires k < NumChunks(|events|)
    ensures forall i :: 0 <= i < |ChunkOf(events, k)| ==> "user_id" in ChunkOf(events, k)[i]
  {
    var chunk := ChunkOf(events, k);
    ChunkLayout(|events|, k);
    forall i | 0 <= i < |chunk|
      ensures "user_id" in chunk[i]
    {
      assert chunk[i] == events[ChunkStart(k) + i];
    }
  }

  lemma CleanEventAt(events: seq<Object>, clock: nat -> Instant, writes: nat -> ChunkWrite, p: nat)
    requires forall p :: 0 <= p < |events| ==> "user_id" in events[p]
    requires forall k :: 0 <= k < NumChunks(|events|) ==> writes(k) == Flushed
    requires p < |events|
    ensures p < |BatchOutcome(events, clock, writes).events|
    ensures BatchOutcome(events, clock, writes).events[p] == Filled(events[p], clock(p))
  {
    var k, q := ChunkIndex(events, p);
    BatchEventAt(events, clock, writes, k, q);
    ChunkHasUserIds(events, k);
    CleanChunk(ChunkOf(events, k), clock, ChunkStart(k));
  }
}
