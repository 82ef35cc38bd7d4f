/** The query lifecycle against the upstream service: creating a query
    (`create_query`, main.py:263-293), executing one page of it and polling
    the execution until it settles (`execute_query`, main.py:122-260), and
    the download of the result file (`process_parquet_in_memory`,
    main.py:34-57).  Every upstream answer is an input. */
module QueryLifecycle {
  import opened Common
  import opened Text
  import opened PyJson
  import opened Upstream

  const QueryExecutionTimeout: nat := 300
  const ExecutionCheckInterval: nat := 2
  /** `QUERY_EXECUTION_TIMEOUT // check_interval`, that is 150. */
  const ExecutionMaxRetries: nat := QueryExecutionTimeout / ExecutionCheckInterval

  const TimeoutMessage: string := "Query execution timed out after " + IntToString(QueryExecutionTimeout) + "s"
  const FailedMessage: string := "Query execution failed"
  const ParquetFailureMessage: string := "Failed to process parquet file"

  /** A result row: column name to value. */
  type Row = map<string, Json>
  /** A decoded result page. */
  type Table = seq<Row>

  /** The GET of the presigned URL: its status code, and the table the
      columnar file decodes to. */
  datatype Download = Download(code: int, table: Table)

  /** What the upstream answers, in order, to one execution of one page. */
  datatype ExecScript = ExecScript(
    trigger: Response,       // POST queries/<slug>/execution/
    first: Response,         // the first GET of the execution's status
    polls: seq<Response>,    // the status GET of each retry
    results: Response,       // GET .../results/
    download: Download)      // GET of the presigned URL

  /** `create_query`: the slug of the created query; `JNull` (Python's
      `None`) when the POST fails, whatever its body says.  A slug other
      than `None` is the `slug` field of a successful answer's dict body,
      and the call raises exactly when a successful answer's body is not a
      dict. */
  function CreateQuery(r: Response): (slug: Outcome<Json>)
    ensures slug.Returns? && slug.value != JNull ==>
              r.Success() && r.body.Parsed? && r.body.value.JObj?
              && "slug" in r.body.value.fields && slug.value == r.body.value.fields["slug"]
    ensures slug.Raises? <==> r.Success() && !(r.body.Parsed? && r.body.value.JObj?)
  {
    if !r.Success() then Returns(JNull) else
    var query :- JsonOf(r);
    Get(query, "slug")
  }

  /** `process_parquet_in_memory`: the table when the download answers 200
      (201 is not accepted here), `None` otherwise.  An empty table is a
      table, not a failure. */
  function ProcessParquetInMemory(d: Download): (t: Option<Table>)
    ensures t.Some? <==> d.code == 200
    ensures t.Some? ==> t.value == d.table
  {
    if d.code == 200 then Some(d.table) else None
  }

  predicate Terminal(status: Json) {
    status == JStr("complete") || status == JStr("failed")
  }

  /** How the poll loop ended. */
  datatype PollEnd =
    | Settled(execution: map<string, Json>)   // loop condition false: terminal, or retries spent
    | CheckFailed(message: Json)              // a status GET answered outside 200/201
    | CheckRaised                             // a body was not JSON, or not a dict

  /** The loop's end and the number of status GETs it issued. */
  datatype Polled = Polled(end: PollEnd, checks: nat)

  /** The `while execution.get("status") not in ["complete", "failed"] and
      retry_count < max_retries` loop, from the current `execution` with
      `budget` retries left. */
  function PollExecution(execution: Json, polls: seq<Response>, budget: nat): (p: Polled)
    requires |polls| >= budget
    ensures p.checks <= budget
    decreases budget
  {
    if !execution.JObj? then Polled(CheckRaised, 0)  // `.get` on a non-dict
    else
      var m := execution.fields;
      if Terminal(DictGet(m, "status")) || budget == 0 then Polled(Settled(m), 0)
      else if !polls[0].Success() then Polled(CheckFailed(ErrorMessage(StatusCheck, polls[0])), 1)
      else
        match JsonOf(polls[0])
        case Raises => Polled(CheckRaised, 1)
        case Returns(next) =>
          var p := PollExecution(next, polls[1..], budget - 1);
          Polled(p.end, p.checks + 1)
  }

  /** `p`, after `k` status GETs issued before it. */
  function Delayed(p: Polled, k: nat): Polled {
    Polled(p.end, p.checks + k)
  }

  /** Settling early means a terminal status; a failed check reports the
      answer of the last status GET issued. */
  lemma {:induction false} PollExecutionEnds(execution: Json, polls: seq<Response>, budget: nat)
    requires |polls| >= budget
    ensures var p := PollExecution(execution, polls, budget);
            (p.end.Settled? && p.checks < budget ==> Terminal(DictGet(p.end.execution, "status")))
            && (p.end.CheckFailed? ==>
                  0 < p.checks && !polls[p.checks - 1].Success()
                  && p.end.message == ErrorMessage(StatusCheck, polls[p.checks - 1]))
    decreases budget
  {
    var p := PollExecution(execution, polls, budget);
    if p.checks > 1 {
      PollExecutionEnds(polls[0].body.value, polls[1..], budget - 1);
      assert polls[1..][p.checks - 2] == polls[p.checks - 1];
    }
  }

  /** One turn of the loop, `k` retries in: the status observed keeps it
      going, so the `k`-th status GET decides what happens next. */
  lemma PollTurn(execution: Json, polls: seq<Response>, k: nat, budget: nat)
    requires k < budget <= |polls|
    requires execution.JObj? && !Terminal(DictGet(execution.fields, "status"))
    ensures Delayed(PollExecution(execution, polls[k..], budget - k), k)
            == if !polls[k].Success() then Polled(CheckFailed(ErrorMessage(StatusCheck, polls[k])), k + 1)
               else if polls[k].body.NotJson? then Polled(CheckRaised, k + 1)
               else Delayed(PollExecution(polls[k].body.value, polls[k + 1..], budget - (k + 1)), k + 1)
  {
    assert polls[k..][1..] == polls[k + 1..];
  }

  /** The loop stops, `k` retries in, on the execution it holds: not a
      dict, a terminal status, or no retry left. */
  lemma PollStop(execution: Json, polls: seq<Response>, k: nat, budget: nat)
    requires k <= budget <= |polls|
    requires !execution.JObj? || Terminal(DictGet(execution.fields, "status")) || k == budget
    ensures Delayed(PollExecution(execution, polls[k..], budget - k), k)
            == Polled(if execution.JObj? then Settled(execution.fields) else CheckRaised, k)
  {
  }

  /** An observation that keeps the loop going. */
  predicate Running(o: Option<Json>) {
    o.Some? && !Terminal(o.value)
  }

  /** The loop's `k`-th observation is terminal and every earlier one kept
      it going. */
  predicate TerminalAt(execution: Json, polls: seq<Response>, k: nat) {
    k <= |polls| && Observation(execution, polls, k).Some? && Terminal(Observation(execution, polls, k).value)
    && forall i :: 0 <= i < k ==> Running(Observation(execution, polls, i))
  }

  /** The body behind the loop's `k`-th observation. */
  function ObservedBody(execution: Json, polls: seq<Response>, k: nat): Json
    requires k <= |polls|
  {
    if k == 0 then execution
    else match polls[k - 1].body
      case Parsed(v) => v
      case NotJson => JNull
  }

  /** The loop stops at the first terminal status it observes, and settles
      on the body that reported it. */
  lemma {:induction false} SettlesAtFirstTerminal(execution: Json, polls: seq<Response>, budget: nat, k: nat)
    requires |polls| >= budget && k <= budget && TerminalAt(execution, polls, k)
    ensures ObservedBody(execution, polls, k).JObj?
    ensures PollExecution(execution, polls, budget) == Polled(Settled(ObservedBody(execution, polls, k).fields), k)
    decreases k
  {
    if k > 0 {
      assert Running(Observation(execution, polls, 0));
      assert Observation(execution, polls, 1).Some?;
      var next := polls[0].body.value;
      forall i | 0 <= i <= k - 1
        ensures Observation(next, polls[1..], i) == Observation(execution, polls, i + 1)
      {
        ObservationShift(execution, polls, i);
      }
      if k > 1 {
        assert polls[1..][k - 2] == polls[k - 1];
      }
      assert ObservedBody(next, polls[1..], k - 1) == ObservedBody(execution, polls, k);
      SettlesAtFirstTerminal(next, polls[1..], budget - 1, k - 1);
    }
  }

  /** A status GET answered outside 200/201 after `k` running
      observations ends the loop there, with the message extracted from
      that answer. */
  lemma {:induction false} FailedCheckStops(execution: Json, polls: seq<Response>, budget: nat, k: nat)
    requires |polls| >= budget && k < budget && !polls[k].Success()
    requires forall i :: 0 <= i <= k ==> Running(Observation(execution, polls, i))
    ensures PollExecution(execution, polls, budget) == Polled(CheckFailed(ErrorMessage(StatusCheck, polls[k])), k + 1)
    decreases k
  {
    assert Running(Observation(execution, polls, 0));
    if k > 0 {
      assert Observation(execution, polls, 1).Some?;
      var next := polls[0].body.value;
      forall i | 0 <= i <= k - 1
        ensures Observation(next, polls[1..], i) == Observation(execution, polls, i + 1)
      {
        ObservationShift(execution, polls, i);
      }
      assert polls[1..][k - 1] == polls[k];
      FailedCheckStops(next, polls[1..], budget - 1, k - 1);
    }
  }

  /** The loop spends its whole budget exactly when all `budget + 1`
      observations (the first GET's and one per retry) were non-terminal. */
  lemma {:induction false} TimedOutExactly(execution: Json, polls: seq<Response>, budget: nat)
    requires |polls| >= budget
    ensures var p := PollExecution(execution, polls, budget);
            (p.end.Settled? && !Terminal(DictGet(p.end.execution, "status")))
            <==> forall i :: 0 <= i <= budget ==> Running(Observation(execution, polls, i))
    decreases budget
  {
    if Running(Observation(execution, polls, 0)) && budget > 0 {
      if polls[0].Success() && polls[0].body.Parsed? {
        var next := polls[0].body.value;
        TimedOutExactly(next, polls[1..], budget - 1);
        forall i | 0 <= i <= budget - 1
          ensures Observation(next, polls[1..], i) == Observation(execution, polls, i + 1)
        {
          ObservationShift(execution, polls, i);
        }
        if forall i :: 0 <= i <= budget - 1 ==> Running(Observation(next, polls[1..], i)) {
          forall i | 0 <= i <= budget ensures Running(Observation(execution, polls, i)) {
            if i > 0 {
              assert Observation(next, polls[1..], i - 1) == Observation(execution, polls, i);
            }
          }
        }
      } else {
        assert !Running(Observation(execution, polls, 1));
      }
    }
  }

  /** The message of a failed execution: its `error`, else its `message`,
      else a fixed text.  It is a value the execution itself holds, unless
      it has neither key. */
  function FailureMessage(execution: map<string, Json>): (m: Json)
    ensures m in execution.Values || ("error" !in execution && "message" !in execution && m == JStr(FailedMessage))
  {
    if "error" in execution then execution["error"]
    else if "message" in execution then execution["message"]
    else JStr(FailedMessage)
  }

  /** The results GET and the download it points to.  Rows come back only
      when both answered their success codes, and they are the downloaded
      table; the call raises only when a successful results answer's body
      is not a dict. */
  function FetchResults(results: Response, download: Download): (o: Outcome<Result<Table, Json>>)
    ensures o.Returns? && o.value.Ok? ==> results.Success() && download.code == 200 && o.value.value == download.table
    ensures o.Raises? <==> results.Success() && !(results.body.Parsed? && results.body.value.JObj?)
  {
    if !results.Success() then Returns(Err(ErrorMessage(ResultsFetch, results)))
    else
      var descriptor :- JsonOf(results);
      var presignedUrl :- Get(descriptor, "presigned_url");
      match ProcessParquetInMemory(download)
      case None => Returns(Err(JStr(ParquetFailureMessage)))
      case Some(table) => Returns(Ok(table))
  }

  /** After the loop: a failed execution, a timeout, or the results.  Rows
      are returned only for a "complete" execution; every other status is
      an error. */
  function Conclude(execution: map<string, Json>, results: Response, download: Download): (o: Outcome<Result<Table, Json>>)
    ensures o.Returns? && o.value.Ok? ==> DictGet(execution, "status") == JStr("complete")
    ensures DictGet(execution, "status") != JStr("complete") ==> o.Returns? && o.value.Err?
  {
    var status := DictGet(execution, "status");
    if status == JStr("failed") then Returns(Err(FailureMessage(execution)))
    else if status != JStr("complete") then Returns(Err(JStr(TimeoutMessage)))
    else FetchResults(results, download)
  }

  /** The execution POST's body must be a dict (`.get("id")`), the first
      status GET's body JSON; its status code is not looked at. */
  function FirstStatus(s: ExecScript): Outcome<Json> {
    var execution :- JsonOf(s.trigger);
    var executionId :- Get(execution, "id");
    JsonOf(s.first)
  }

  /** What `execute_query` returns (a table or an error message, or an
      escaping exception) and how many status GETs its loop issued. */
  datatype Execution = Execution(result: Outcome<Result<Table, Json>>, checks: nat)

  function ExecuteQueryOutcome(s: ExecScript): (e: Execution)
    requires |s.polls| >= ExecutionMaxRetries
    ensures e.checks <= ExecutionMaxRetries
  {
    if !s.trigger.Success() then Execution(Returns(Err(ErrorMessage(ExecutionRequest, s.trigger))), 0)
    else
      match FirstStatus(s)
      case Raises => Execution(Raises, 0)
      case Returns(first) => AfterPolling(PollExecution(first, s.polls, ExecutionMaxRetries), s.results, s.download)
  }

  /** What `execute_query` returns once the loop ended. */
  function AfterPolling(p: Polled, results: Response, download: Download): (e: Execution)
    ensures e.checks == p.checks
  {
    match p.end
    case CheckRaised => Execution(Raises, p.checks)
    case CheckFailed(message) => Execution(Returns(Err(message)), p.checks)
    case Settled(execution) => Execution(Conclude(execution, results, download), p.checks)
  }

  /** The wait loop of `execute_query`: from the first status GET's body,
      re-check until the status is terminal, a check fails, or the retries
      are spent. */
  method AwaitSettled(execution: Json, polls: seq<Response>) returns (end: PollEnd, checks: nat)
    requires |polls| >= ExecutionMaxRetries
    ensures Polled(end, checks) == PollExecution(execution, polls, ExecutionMaxRetries)
  {
    ghost var goal := PollExecution(execution, polls, ExecutionMaxRetries);
    var execution := execution;
    var maxRetries := ExecutionMaxRetries;
    var retryCount := 0;
    while execution.JObj? && !Terminal(DictGet(execution.fields, "status")) && retryCount < maxRetries
      invariant 0 <= retryCount <= maxRetries
      invariant goal == Delayed(PollExecution(execution, polls[retryCount..], maxRetries - retryCount), retryCount)
      decreases maxRetries - retryCount
    {
      PollTurn(execution, polls, retryCount, maxRetries);
      retryCount := retryCount + 1;
      var response := polls[retryCount - 1];
      if !response.Success() {
        return CheckFailed(ErrorMessage(StatusCheck, response)), retryCount;
      }
      if response.body.NotJson? {
        return CheckRaised, retryCount;
      }
      execution := response.body.value;
    }

    PollStop(execution, polls, retryCount, maxRetries);
    if !execution.JObj? {
      return CheckRaised, retryCount;
    }
    return Settled(execution.fields), retryCount;
  }

  /** `execute_query`, with the upstream's answers as `s`. */
  method ExecuteQuery(s: ExecScript) returns (result: Outcome<Result<Table, Json>>, checks: nat)
    requires |s.polls| >= ExecutionMaxRetries
    ensures checks <= 150
    ensures Execution(result, checks) == ExecuteQueryOutcome(s)
  {
    if !s.trigger.Success() {
      return Returns(Err(ErrorMessage(ExecutionRequest, s.trigger))), 0;
    }
    var started := FirstStatus(s);
    if started.Raises? {
      return Raises, 0;
    }
    var end;
    end, checks := AwaitSettled(started.value, s.polls);
    match end
    case CheckRaised =>
      result := Raises;
    case CheckFailed(message) =>
      result := Returns(Err(message));
    case Settled(execution) =>
      result := Conclude(execution, s.results, s.download);
  }

  /** The fixed timeout text. */
  lemma TimeoutMessageText()
    ensures TimeoutMessage == "Query execution timed out after 300s"
  {
    assert IntToString(300) == "300";
  }

  /** A failed execution POST is reported with the chain's message, before
      any status GET. */
  lemma TriggerFailureReported(s: ExecScript)
    requires |s.polls| >= ExecutionMaxRetries && !s.trigger.Success()
    ensures ExecuteQueryOutcome(s) == Execution(Returns(Err(ErrorMessage(ExecutionRequest, s.trigger))), 0)
  {
  }

  /** When the first status and all 150 re-checks report a non-terminal
      status, the caller gets exactly the timeout message, after 150
      status GETs. */
  lemma TimeoutReported(s: ExecScript)
    requires |s.polls| >= ExecutionMaxRetries && s.trigger.Success() && FirstStatus(s).Returns?
    requires forall i :: 0 <= i <= ExecutionMaxRetries ==>
               Running(Observation(FirstStatus(s).value, s.polls, i))
    ensures ExecuteQueryOutcome(s)
            == Execution(Returns(Err(JStr("Query execution timed out after 300s"))), ExecutionMaxRetries)
  {
    TimedOutExactly(FirstStatus(s).value, s.polls, ExecutionMaxRetries);
    PollExecutionEnds(FirstStatus(s).value, s.polls, ExecutionMaxRetries);
    TimeoutMessageText();
  }

  /** The first terminal status decides, after as many status GETs as
      observations before it: "failed" gives the failure message of the
      body that reported it, "complete" the results; nothing after it is
      looked at. */
  lemma TerminalStatusDecides(s: ExecScript, k: nat)
    requires |s.polls| >= ExecutionMaxRetries && s.trigger.Success() && FirstStatus(s).Returns?
    requires k <= ExecutionMaxRetries && TerminalAt(FirstStatus(s).value, s.polls, k)
    ensures var body := ObservedBody(FirstStatus(s).value, s.polls, k);
            var e := ExecuteQueryOutcome(s);
            body.JObj? && e.checks == k
            && (DictGet(body.fields, "status") == JStr("complete") ==> e.result == FetchResults(s.results, s.download))
            && (DictGet(body.fields, "status") == JStr("failed") ==> e.result == Returns(Err(FailureMessage(body.fields))))
  {
    SettlesAtFirstTerminal(FirstStatus(s).value, s.polls, ExecutionMaxRetries, k);
  }

  /** The results GET and the download are consulted only after "complete":
      on every other path they can be anything. */
  lemma ResultsFetchedOnlyOnComplete(s: ExecScript, results: Response, download: Download)
    requires |s.polls| >= ExecutionMaxRetries
    requires !(s.trigger.Success() && FirstStatus(s).Returns?
               && var p := PollExecution(FirstStatus(s).value, s.polls, ExecutionMaxRetries);
                  p.end.Settled? && DictGet(p.end.execution, "status") == JStr("complete"))
    ensures ExecuteQueryOutcome(s) == ExecuteQueryOutcome(s.(results := results, download := download))
  {
  }

  /** After the loop: "failed" reports the execution's `error`, else its
      `message`, else the fixed text; any other status but "complete" is
      the timeout, whatever it is. */
  lemma ConcludeClassifies(execution: map<string, Json>, results: Response, download: Download)
    ensures DictGet(execution, "status") == JStr("failed") ==>
              Conclude(execution, results, download) == Returns(Err(
                if "error" in execution then execution["error"]
                else if "message" in execution then execution["message"]
                else JStr("Query execution failed")))
    ensures !Terminal(DictGet(execution, "status")) ==>
              Conclude(execution, results, download) == Returns(Err(JStr("Query execution timed out after 300s")))
    ensures DictGet(execution, "status") == JStr("complete") ==>
              Conclude(execution, results, download) == FetchResults(results, download)
  {
    TimeoutMessageText();
  }

  /** The status code of the first status GET is not looked at. */
  lemma FirstStatusCodeIgnored(s: ExecScript, code: int)
    requires |s.polls| >= ExecutionMaxRetries
    ensures ExecuteQueryOutcome(s) == ExecuteQueryOutcome(s.(first := s.first.(code := code)))
  {
  }

  /** After a successful results GET with a dict body: a download answering
      200 is a success carrying the decoded table, however many rows it has
      (none included); any other answer is the parquet failure message. */
  lemma DownloadDecides(results: Response, download: Download)
    requires results.Success() && results.body.Parsed? && results.body.value.JObj?
    ensures download.code == 200 ==> FetchResults(results, download) == Returns(Ok(download.table))
    ensures download.code == 200 && download.table == [] ==> FetchResults(results, download) == Returns(Ok([]))
    ensures download.code != 200 ==>
              FetchResults(results, download) == Returns(Err(JStr("Failed to process parquet file")))
  {
  }
}
