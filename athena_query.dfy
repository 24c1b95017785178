/** Running a SQL query on the data lake (AnalyticsService.execute_athena_query):
    submit, poll the execution state at most 30 times, and on success fetch
    and parse the rows. The query service is an oracle that supplies the
    answer to every call the loop makes. */
module AthenaQuery {
  import opened Base
  import opened AthenaResults

  datatype QueryState = Queued | Running | Succeeded | Failed | Cancelled

  /** One answer of get_query_execution: the state and, possibly, the
      StateChangeReason the service gives. */
  datatype StatusAnswer = StatusAnswer(state: QueryState, reason: Option<string>)

  /** The query service's answers: to the submission (an execution id), to
      the n-th status poll, and to the request for the result rows. Each
      call may raise instead. */
  datatype QueryBackend = QueryBackend(
    submission: Result<string>,
    polls: nat -> Result<StatusAnswer>,
    rows: Result<seq<Row>>)

  datatype QueryResponse = QueryResponse(queryExecutionId: string, status: string, results: seq<Record>)

  const MaxAttempts: nat := 30
  const QueryErrorPrefix := "Failed to execute Athena query: "
  const QueryTimeout := "Query timeout"
  const QueryFailed := "Query failed: "

  predicate IsTerminal(s: QueryState) {
    s == Succeeded || s == Failed || s == Cancelled
  }

  /** A poll answer that ends the loop: an exception or a terminal state. */
  predicate Decisive(a: Result<StatusAnswer>) {
    a.Err? || IsTerminal(a.value.state)
  }

  /** The first poll, from `from` on and below MaxAttempts, that ends the
      loop; MaxAttempts when none does. */
  function FirstDecisive(polls: nat -> Result<StatusAnswer>, from: nat): (t: nat)
    requires from <= MaxAttempts
    ensures from <= t <= MaxAttempts
    ensures forall n :: from <= n < t ==> !Decisive(polls(n))
    ensures t < MaxAttempts ==> Decisive(polls(t))
    decreases MaxAttempts - from
  {
    if from == MaxAttempts || Decisive(polls(from)) then from else FirstDecisive(polls, from + 1)
  }

  /** The text of the exception a FAILED or CANCELLED state raises. */
  function FailureText(a: StatusAnswer): string {
    QueryFailed + match a.reason
      case Some(reason) => reason
      case None => "Unknown error"
  }

  /** What executing the query yields against the given answers: every
      exception, the service's own and the loop's, is re-raised with the
      prefix QueryErrorPrefix. */
  function QueryOutcome(b: QueryBackend): (r: Result<QueryResponse>)
    ensures r.Err? ==> |QueryErrorPrefix| <= |r.message| && r.message[..|QueryErrorPrefix|] == QueryErrorPrefix
    ensures r.Ok? ==> b.submission.Ok? && r.value.queryExecutionId == b.submission.value
    ensures r.Ok? ==> b.rows.Ok? && ParsedRows(b.rows.value) == Ok(r.value.results)
    ensures r.Ok? ==> r.value.status == "success"
    ensures b.submission.Err? ==> r == Err(QueryErrorPrefix + b.submission.message)
    ensures b.submission.Ok? ==>
      var t := FirstDecisive(b.polls, 0);
      && (t < MaxAttempts && b.polls(t).Err? ==> r == Err(QueryErrorPrefix + b.polls(t).message))
      && (t < MaxAttempts && SucceededAt(b.polls(t)) && b.rows.Err? ==> r == Err(QueryErrorPrefix + b.rows.message))
      && (t < MaxAttempts && SucceededAt(b.polls(t)) && b.rows.Ok? && ParsedRows(b.rows.value).Err? ==>
            r == Err(QueryErrorPrefix + ParsedRows(b.rows.value).message))
  {
    match b.submission
    case Err(m) => Err(QueryErrorPrefix + m)
    case Ok(id) =>
      var t := FirstDecisive(b.polls, 0);
      if t == MaxAttempts then Err(QueryErrorPrefix + QueryTimeout)
      else match b.polls(t)
        case Err(m) => Err(QueryErrorPrefix + m)
        case Ok(answer) =>
          if answer.state == Succeeded then
            match b.rows
            case Err(m) => Err(QueryErrorPrefix + m)
            case Ok(rows) =>
              match ParsedRows(rows)
              case Err(m) => Err(QueryErrorPrefix + m)
              case Ok(data) => Ok(QueryResponse(id, "success", data))
          else Err(QueryErrorPrefix + FailureText(answer))
  }

  /** How many status polls the query makes against the given answers. */
  function PollsMade(b: QueryBackend): (n: nat)
    ensures n <= MaxAttempts
  {
    if b.submission.Err? then 0
    else
      var t := FirstDecisive(b.polls, 0);
      if t < MaxAttempts then t + 1 else MaxAttempts
  }

  /** The polling loop: returns at the first SUCCEEDED, raises at the first
      FAILED or CANCELLED, and gives up after MaxAttempts polls. */
  method ExecuteAthenaQuery(b: QueryBackend) returns (r: Result<QueryResponse>, polled: nat)
    ensures r == QueryOutcome(b)
    ensures polled == PollsMade(b)
  {
    polled := 0;
    if b.submission.Err? {
      r := Err(QueryErrorPrefix + b.submission.message);
      return;
    }
    var id := b.submission.value;
    var attempt := 0;
    while attempt < MaxAttempts
      invariant 0 <= attempt <= MaxAttempts
      invariant polled == attempt
      invariant FirstDecisive(b.polls, attempt) == FirstDecisive(b.polls, 0)
    {
      var answer := b.polls(attempt);
      polled := polled + 1;
      assert Decisive(answer) ==> FirstDecisive(b.polls, 0) == attempt;
      if answer.Err? {
        r := Err(QueryErrorPrefix + answer.message);
        return;
      }
      var status := answer.value;
      if status.state == Succeeded {
        if b.rows.Err? {
          r := Err(QueryErrorPrefix + b.rows.message);
          return;
        }
        var parsed := ParseAthenaResults(b.rows.value);
        if parsed.Err? {
          r := Err(QueryErrorPrefix + parsed.message);
          return;
        }
        r := Ok(QueryResponse(id, "success", parsed.value));
        return;
      } else if status.state == Failed || status.state == Cancelled {
        r := Err(QueryErrorPrefix + FailureText(status));
        return;
      }
      attempt := attempt + 1;
    }
    r := Err(QueryErrorPrefix + QueryTimeout);
  }

  /** Thirty polls in a non-terminal state end the query with the timeout
      error, after exactly thirty polls. */
  lemma TimeoutAfterMaxAttempts(b: QueryBackend)
    requires b.submission.Ok?
    requires forall n :: 0 <= n < MaxAttempts ==> b.polls(n).Ok? && !IsTerminal(b.polls(n).value.state)
    ensures QueryOutcome(b) == Err(QueryErrorPrefix + QueryTimeout)
    ensures PollsMade(b) == MaxAttempts
  {
    assert FirstDecisive(b.polls, 0) == MaxAttempts;
  }

  /** The first terminal answer decides: SUCCEEDED gives the parsed rows,
      FAILED or CANCELLED the reason (or "Unknown error"), and the polls
      after it are never made. */
  lemma FirstTerminalDecides(b: QueryBackend, t: nat)
    requires b.submission.Ok? && t < MaxAttempts
    requires forall n :: 0 <= n < t ==> b.polls(n).Ok? && !IsTerminal(b.polls(n).value.state)
    requires b.polls(t).Ok? && IsTerminal(b.polls(t).value.state)
    ensures PollsMade(b) == t + 1
    ensures b.polls(t).value.state == Succeeded && b.rows.Ok? && ParsedRows(b.rows.value).Ok? ==>
      QueryOutcome(b) == Ok(QueryResponse(b.submission.value, "success", ParsedRows(b.rows.value).value))
    ensures b.polls(t).value.state != Succeeded ==>
      QueryOutcome(b) == Err(QueryErrorPrefix + QueryFailed +
        (if b.polls(t).value.reason.Some? then b.polls(t).value.reason.value else "Unknown error"))
  {
    DecidesAt(b.polls, t);
    var answer := b.polls(t).value;
    if answer.state == Succeeded {
      if b.rows.Ok? && ParsedRows(b.rows.value).Ok? {
        assert QueryOutcome(b) == Ok(QueryResponse(b.submission.value, "success", ParsedRows(b.rows.value).value));
      }
    } else {
      assert QueryOutcome(b) == Err(QueryErrorPrefix + FailureText(answer));
    }
  }

  /** A query succeeds exactly when the submission is accepted, some poll
      within the first thirty reports SUCCEEDED before any other terminal
      state or exception, and the rows are fetched and parse. */
  lemma SucceedsExactly(b: QueryBackend)
    ensures QueryOutcome(b).Ok? <==>
      && b.submission.Ok?
      && (exists t :: 0 <= t < MaxAttempts && SucceededAt(b.polls(t))
            && forall n :: 0 <= n < t ==> b.polls(n).Ok? && !IsTerminal(b.polls(n).value.state))
      && b.rows.Ok? && ParsedRows(b.rows.value).Ok?
  {
    var d := FirstDecisive(b.polls, 0);
    forall t | 0 <= t < MaxAttempts && SucceededAt(b.polls(t))
                 && forall n :: 0 <= n < t ==> b.polls(n).Ok? && !IsTerminal(b.polls(n).value.state)
      ensures d == t
    {
      DecidesAt(b.polls, t);
    }
    if d < MaxAttempts && SucceededAt(b.polls(d)) {
      assert forall n :: 0 <= n < d ==> b.polls(n).Ok? && !IsTerminal(b.polls(n).value.state);
    }
  }

  /** An answer that ends the loop after only non-terminal ones is the
      first such answer. */
  lemma DecidesAt(polls: nat -> Result<StatusAnswer>, t: nat)
    requires t < MaxAttempts && Decisive(polls(t))
    requires forall n :: 0 <= n < t ==> polls(n).Ok? && !IsTerminal(polls(n).value.state)
    ensures FirstDecisive(polls, 0) == t
  {
    var d := FirstDecisive(polls, 0);
    assert d <= t;
  }

  predicate SucceededAt(a: Result<StatusAnswer>) {
    a.Ok? && a.value.state == Succeeded
  }
}
