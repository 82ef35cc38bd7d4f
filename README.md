# Query proxy for the nekt analytics API, in Dafny

`main.py` is a small HTTP proxy in front of the nekt analytics API. A caller
creates a query, either from raw SQL or from a layer, a table and an
optional row limit. The caller then asks for one page of its results. To
serve a request, the proxy makes sure the upstream "application" is running,
starts it and polls it if needed, and caches a positive answer in the global
`application_status`. It then creates the query, or triggers an execution
and polls it until it settles, fetches the result location and downloads a
columnar file. Every upstream failure is condensed into one error message.

This project models that decision logic. Every upstream HTTP answer is an
input value, so the model covers what the proxy decides, not the network:

- `common.dfy`: `Option`, `Result`, and `Outcome`. `Outcome` is a value or
  an exception that escapes (`Raises`), used with `:-`.
- `text.dfy`: decimal rendering and parsing of integers, as f-strings and
  `int()` on digit strings use them. Also substrings and `", ".join`.
- `json.dfy` (`PyJson`): decoded JSON values and the Python operations the
  code applies to them. These are truthiness, `dict.get` (a missing key is
  `None`), `in`, `len`, `[0]`, `[key]`, `int()` and f-string rendering. Each
  raises where Python raises, except for the digit-count limit on
  integer/text conversion (see "Left out").
- `upstream.dfy` (`Upstream`): upstream responses, and the one function
  behind the three inline error-message chains, with a parameter for the
  call it belongs to. It also holds the observation functions shared by the
  two poll loops.
- `sql.dfy` (`SqlBuilder`): `build_sql_query`, plus a parser used only to
  state what the built text determines.
- `validation.dfy` (`RequestValidation`): validation of the create-query
  body and of `page_number`.
- `readiness.dfy` (`Readiness`): `ensure_application_running`. Its poll
  loop is a method proved equal to a recursive function. The global
  `application_status` is the class `ApplicationStatusCache`, whose method
  updates its one field.
- `execution.dfy` (`QueryLifecycle`): `create_query`, `execute_query` with
  its poll loop and its classification of the settled execution, and
  `process_parquet_in_memory`.
- `endpoints.dfy` (`Endpoints`): the two authenticated routes, as methods
  over the cache, each proved equal to a function of the old cache and the
  inputs.

Four behaviours of the code may surprise a reader. The model keeps each of
them as written:

- A failed `create_query` gives the caller "Failed to create query" with no
  status code or upstream detail (main.py:285-287, 339-340).
- A readiness timeout gives "Failed to start application", not a message
  that names the timeout (main.py:113-119, 437-438).
- The status-check and results chains never consult a top-level `error`
  key. Only the execution-request chain does (main.py:190-202, 232-244).
- The raw body text is used only when decoding the body or walking the
  chain raises. A JSON body that names none of the keys gets the generic
  message, whatever its text (main.py:148-163).

## Model

| member | source | states |
|---|---|---|
| Text.NatToStringRoundTrip | main.py:394 | the model's `int()` of the decimal rendering of a natural number gives that number back (Python agrees up to 4300 digits) |
| Text.IntToStringRoundTrip | main.py:394 | in the model, `int(f"{n}") == n` for every integer, negative ones included (Python agrees up to 4300 digits) |
| Text.IntToStringInjective | main.py:148 | different status codes never render alike, so a generic message names its code |
| SqlBuilder.BuildSqlQuery | main.py:296-319 | the text starts with `SELECT\n\t*\nFROM\n\t"`, and it ends in a closing quote exactly when no limit is given |
| SqlBuilder.BuildSqlQueryParts | main.py:309-319 | the text is exactly the header, the layer, `"."`, the table, a closing quote, then `\nLIMIT n` when a limit is given |
| SqlBuilder.BuildThenParse | main.py:309-319 | when layer and table hold no double quote, layer, table and limit can be read back from the text (round trip) |
| SqlBuilder.QuotesAreNotEscaped | main.py:309-313 | embedded quotes are not escaped: layer `x"."y` with table `z` gives the same text as layer `x` with table `y"."z` |
| Upstream.ErrorsDetailWins | main.py:152-153 | in every chain, `errors[0].detail` wins over every top-level key |
| Upstream.FirstPresentKeyWins | main.py:154-159 | otherwise the first present of `detail`, `message` (and `error`, for the execution request only) is the message |
| Upstream.NoKeyGivesGeneric | main.py:148-163 | a dict body naming none of the keys gives the call's generic text with the status code, whatever the raw text |
| Upstream.NotJsonGivesText | main.py:160-162 | a body that is not JSON gives its raw text, or the generic text when that is empty |
| Upstream.StatusAndResultsChainsAgree | main.py:190-202 | the status-check chain and the results chain (main.py:232-244) pick the same source; only their generic texts differ |
| Upstream.ErrorKeyIsTheOnlyDifference | main.py:158-159 | the execution-request chain differs from the status-check chain only when the latter finds nothing and the body has an `error` key |
| Upstream.ErrorMessage | main.py:146-163 | the message of a failed call (also main.py:190-202, 232-244); one that is not a non-empty text can only come from the body, since the raw text is used only when non-empty and the generic text never is empty |
| RequestValidation.PresentKeys | main.py:369 | the disallowed list holds exactly the present keys among layer, table and limit, in that order |
| RequestValidation.ValidateCreate | main.py:355-398 | a falsy body is "No JSON data provided"; a truthy non-dict raises; an accepted raw query is the body's own truthy `sql_query` with no table parameter present; an accepted table spec carries the body's own truthy layer and table and a limit that is absent or > 0 (which body is rejected with which message is stated by the four lemmas below) |
| RequestValidation.ValidateFields | main.py:364-398 | a rejection carries the disallowed-key message for exactly the present keys, or one of the four fixed table-mode texts; raw mode is chosen exactly when `sql_query` is truthy |
| RequestValidation.MixedModesRejected | main.py:366-378 | with a truthy `sql_query`, the body is rejected exactly when a table parameter is present, and the message lists exactly those present |
| RequestValidation.LayerReportedBeforeTable | main.py:386-389 | a missing layer is reported even when the table is missing too |
| RequestValidation.MissingTableReported | main.py:388-389 | with a falsy `sql_query` and a truthy layer, a missing or falsy table is rejected with the missing-table message, whatever the limit |
| RequestValidation.LimitValidation | main.py:392-398 | a null or absent limit means no limit; one that `int()` rejects is "Limit must be a valid integer"; one of at most 0 is "Limit must be a positive integer"; otherwise it is kept |
| RequestValidation.RawSqlWithLayerExample | main.py:369-378 | `sql_query` beside `layer` is refused, naming `layer` |
| RequestValidation.LayerWithoutTableExample | main.py:388-389 | the body `{"layer": "x"}` is refused with the missing-table message |
| RequestValidation.ValidatePageNumber | main.py:426-431 | an absent page is 1; an accepted page is at least 1, and every integer text of at least 1 is accepted in the model (Python also refuses texts of more than 4300 digits); a rejection names "not positive" or "not an integer" correctly |
| RequestValidation.PageNumberAccepted | main.py:427-429 | in the model, every positive page number written in decimal is accepted as itself (in Python, those of at most 4300 digits) |
| RequestValidation.PageNumberExamples | main.py:426-431 | "0" is rejected as not positive and "abc" as not an integer |
| Readiness.PollApplication | main.py:96-111 | the wait loop issues at most as many status GETs as it has retries |
| Readiness.PollEnds | main.py:99-111 | a timeout spends every retry, and a refusal is the answer of the last status GET issued |
| Readiness.ActivatedAt | main.py:99-116 | seeing "active" at observation `k`, after `k` pending observations, ends the loop there with `k` status GETs |
| Readiness.ActivatedMeansActiveAt | main.py:113-116 | conversely, ending on "active" means the last observation was "active" and every earlier one was pending |
| Readiness.RefusedCheckStops | main.py:106-109 | a status GET answered outside 200/201 after pending observations stops the loop at once |
| Readiness.TimedOutExactly | main.py:96-119 | the loop times out exactly when all 61 observations (the start POST's and 60 re-checks) were pending |
| Readiness.AwaitActive | main.py:95-111 | the imperative loop ends as the recursive `PollApplication` does, after the same number of status GETs |
| Readiness.ChecksBounded | main.py:95-99 | one call issues at most 300 // 5 = 60 status GETs |
| Readiness.StartRefusedReturnsFalse | main.py:86-89 | a start POST outside 200/201 returns False before any polling and leaves the cache empty |
| Readiness.CacheSetOnlyOnActive | main.py:113-114 | the cache is set only on a True return (or stays set when the confirmation itself raised); a True return always sets it |
| Readiness.TrueMeansObservedActive | main.py:76-116 | True means an agreeing confirmation of a set cache, or a poll loop that ended on "active" |
| Readiness.DisagreeingConfirmationResets | main.py:76-82 | a confirmation reporting anything but "active" resets the cache and behaves exactly like an empty cache |
| Readiness.ConfirmedCacheKept | main.py:76-81 | an agreeing confirmation returns True at once, with the cache kept and no status GET |
| Readiness.ConfirmIgnoresStatusCode | main.py:78-80 | the confirmation's status code is not looked at |
| Readiness.EmptyCacheSkipsConfirmation | main.py:76 | an empty cache never looks at a confirmation |
| Readiness.EnsureRunning | main.py:60-119 | a False return always leaves the cache empty; status GETs are issued only after a successful start POST, with the cache empty or disproved |
| Readiness.ApplicationStatusCache.constructor | main.py:14 | the cache starts empty |
| Readiness.ApplicationStatusCache.EnsureApplicationRunning | main.py:60-119 | result, new cache and number of status GETs are those of `EnsureRunning` on the old cache |
| QueryLifecycle.PollExecution | main.py:176-207 | the execution loop issues at most as many status GETs as it has retries |
| QueryLifecycle.PollExecutionEnds | main.py:181-207 | settling early means a terminal status; a failed check carries the message extracted from the last status GET |
| QueryLifecycle.SettlesAtFirstTerminal | main.py:181 | the loop settles on the first body whose status is "complete" or "failed", after as many GETs as observations before it |
| QueryLifecycle.FailedCheckStops | main.py:188-205 | a re-check answered outside 200/201 aborts the loop at once with the status-check chain's message |
| QueryLifecycle.TimedOutExactly | main.py:176-207 | the loop spends its budget without a terminal status exactly when all 151 observations were non-terminal |
| QueryLifecycle.AwaitSettled | main.py:176-207 | the imperative loop ends as the recursive `PollExecution` does, after the same number of status GETs |
| QueryLifecycle.ExecuteQueryOutcome | main.py:176-181 | at most 300 // 2 = 150 re-checks after the first status GET |
| QueryLifecycle.ExecuteQuery | main.py:122-260 | the result and the number of re-checks are those of `ExecuteQueryOutcome`, never more than 150 |
| QueryLifecycle.TriggerFailureReported | main.py:146-165 | a failed execution POST returns the execution-request chain's message before any status GET |
| QueryLifecycle.FirstStatusCodeIgnored | main.py:173-174 | the status code of the first status GET is not looked at |
| QueryLifecycle.TimeoutMessageText | main.py:219-222 | the timeout message is "Query execution timed out after 300s" |
| QueryLifecycle.TimeoutReported | main.py:176-222 | when no observation is terminal, the result is exactly the timeout message after 150 re-checks |
| QueryLifecycle.TerminalStatusDecides | main.py:181-230 | the first terminal status decides: "failed" gives that body's failure message, "complete" the results |
| QueryLifecycle.ConcludeClassifies | main.py:209-222 | "failed" gives `error`, else `message`, else "Query execution failed"; any non-terminal status is the timeout; "complete" goes on to the results |
| QueryLifecycle.ResultsFetchedOnlyOnComplete | main.py:209-230 | unless the loop settled on "complete", the results GET and the download do not affect the outcome |
| QueryLifecycle.DownloadDecides | main.py:249-260 | after a good results GET, a 200 download is a success carrying the rows, an empty page included; any other answer is "Failed to process parquet file" |
| QueryLifecycle.CreateQuery | main.py:263-293 | a slug other than None is the `slug` field of a 200/201 answer's dict body; the call raises exactly when a 200/201 answer's body is not a dict |
| QueryLifecycle.ProcessParquetInMemory | main.py:34-57 | a table comes back exactly when the download answers 200 (201 is a failure here), and it is the decoded table, however many rows |
| QueryLifecycle.FailureMessage | main.py:209-217 | the message of a failed execution is a value the execution holds, unless it has neither `error` nor `message`, when it is "Query execution failed" |
| QueryLifecycle.FetchResults | main.py:224-260 | rows come back only when the results GET answered 200/201 and the download 200, and they are the downloaded table; the call raises exactly when a 200/201 results body is not a dict |
| QueryLifecycle.Conclude | main.py:209-260 | rows are returned only for a "complete" execution; every other status is an error |
| Endpoints.CreateQueryAndReturnSlug | main.py:322-342 | the slug, or "Failed to start application" / "Failed to create query", as `SlugOrError` gives it from the readiness outcome; the cache is updated as readiness does |
| Endpoints.CreateQueryEndpoint | main.py:345-418 | reply and new cache are those of `CreateQueryResponse` on the old cache |
| Endpoints.ExecuteQueryEndpoint | main.py:421-461 | reply and new cache are those of `ResultsResponse` on the old cache |
| Endpoints.SlugOrError | main.py:333-342 | a slug comes only from a running application and a truthy `create_query` result; the only messages are "Failed to start application" and "Failed to create query", the first whenever readiness returned False |
| Endpoints.CreateQueryResponse | main.py:355-418 | 400 exactly when validation rejects the body; a 500 message is one of the two fixed texts; a created query leaves the cache set; never a results reply |
| Endpoints.ResultsResponse | main.py:426-461 | 400 exactly when the page number is rejected; a page or execution error names the slug asked for and a page of at least 1, with the cache set; a start failure leaves the cache empty |
| Endpoints.CreateRejectionSkipsUpstream | main.py:355-398 | a rejected body is a 400 that does not depend on any upstream answer and leaves the cache alone |
| Endpoints.CreatedMeans | main.py:406-418 | a 200 means a valid body, a running application, a truthy slug from upstream, and a reply echoing that slug and the SQL sent |
| Endpoints.TableModeSendsBuiltQuery | main.py:382-401 | table mode sends the text `build_sql_query` makes of layer and table: without a `LIMIT` line when the limit is null or absent, and with the converted integer (necessarily positive) otherwise |
| Endpoints.CreateFailureIsGeneric | main.py:334-340 | a failed create POST gives "Failed to create query", whatever the upstream said |
| Endpoints.StartFailureReported | main.py:437-438 | readiness returning False gives "Failed to start application" on both routes (also main.py:334-335), with the cache empty |
| Endpoints.PageRejectionSkipsUpstream | main.py:426-431 | a bad page number is a 400 that does not depend on any upstream answer and leaves the cache alone |
| Endpoints.ResultsReplyMeans | main.py:441-461 | a page reply carries the page asked for (1 by default) and exactly the decoded rows; an error reply carries `execute_query`'s message |
| Endpoints.UnknownQueryExample | main.py:146-165 | for every valid page number, an execution POST answered 404 with `{"detail": "Not found"}` gives an execution-failed reply for that page with `details` "Not found" |

## Left out

- The `require_api_key` decorator: a request without `x-api-key` gets a 401
  (main.py:22-31). The routes are modelled after that check, and the key
  itself is not modelled. So the cache is shared by all callers, as it is
  in the code.
- The health route, Flask routing, `request`, `g`, `jsonify` and the
  `Response` shaping. A reply is a `Reply` value standing for the status
  code and the fields of the JSON body.
- A request body that is not JSON at all: the route runs, and reading
  `request.json` at main.py:355 raises, which the framework turns into an
  error reply. The model starts from a decoded body.
- All HTTP calls. Each answer is an input: status code, decoded body or
  "not JSON", and raw text. The URLs, headers, the slug and `page_number`
  sent upstream, and the execution id are not modelled. Neither are
  network exceptions from `requests`.
- `time.sleep` and wall-clock time. Only the retry counts matter.
- Logging.
- pandas: `pd.read_parquet`, `df.empty` and `df.to_json`. A download is its
  status code and the table it decodes to. A file that fails to decode
  (an exception in the code) is not modelled. Neither is the `presigned_url`
  being missing, which makes `requests.get(None)` raise.
- The limit on integer/text conversion of more than 4300 decimal digits
  (`sys.get_int_max_str_digits()`, the default of current Python). There,
  `int()` of such a text raises `ValueError`, and so does `str()` or an
  f-string of such an integer. The model's `ParseInt` and `IntToString`
  have no bound. So a `page_number` text of more than 4300 digits (main.py:427)
  is refused by the code with "Page number must be a valid integer", but the
  model accepts it. The same holds for a `limit` text of that length
  (main.py:394), which the code refuses with "Limit must be a valid integer".
- `int()`: it is modelled on digit strings with an optional leading minus.
  Python also accepts surrounding whitespace, a leading `+`, underscores
  between digits and non-ASCII decimal digits (`int("３") == 3`).
  `int()` of a JSON float truncates, and JSON numbers here are integers
  only, so floats are not modelled.
- `PyJson.Str`: an f-string of a list or dict layer or table renders as a
  fixed placeholder, not as Python's `repr`.
- Concurrency on the global `application_status`. The cache is used
  sequentially.
- Every poll sequence must be at least as long as the retry budget. That
  is, the environment answers every status GET the loop could issue. The
  loops read only a prefix.
