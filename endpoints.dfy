/** The two authenticated routes of the proxy, composed from validation,
    the readiness cache and the query lifecycle: `POST /api/queries`
    (`create_query_endpoint` with `create_query_and_return_slug`,
    main.py:322-418) and `GET /api/queries/<slug>/results`
    (`execute_query_endpoint`, main.py:421-461).  The API key has already
    been checked; every upstream answer is an input. */
module Endpoints {
  import opened Common
  import opened PyJson
  import opened Upstream
  import opened SqlBuilder
  import opened RequestValidation
  import opened Readiness
  import opened QueryLifecycle

  const StartFailedMessage: string := "Failed to start application"
  const CreateFailedMessage: string := "Failed to create query"

  /** What a route answers. */
  datatype Reply =
    | Created(slug: Json, sql: Json)                      // 200 {query_slug, sql_query, status, message}
    | Page(query: string, page: int, rows: Table)          // 200 {query_slug, page, data}
    | BadRequest(message: string)                         // 400 {error}
    | Failed(message: string)                             // 500 {error}
    | ExecutionFailed(query: string, page: int, details: Json)  // 500 {error: "Query execution failed", ...}
    | Uncaught                                            // an exception escaped: the framework's 500
  {
    function Status(): int {
      match this
      case Created(_, _) => 200
      case Page(_, _, _) => 200
      case BadRequest(_) => 400
      case _ => 500
    }
  }

  /** A route's reply and the readiness cache it leaves behind. */
  datatype Handled = Handled(reply: Reply, active: bool)

  /** The SQL sent upstream: a raw query as given, or the text built from
      the layer and table (each rendered as an f-string would) and the
      limit. */
  function SqlText(src: QuerySource): Json {
    match src
    case RawSql(sql) => sql
    case TableSpec(layer, table, limit) => JStr(BuildSqlQuery(Str(layer), Str(table), limit))
  }

  /** `create_query_and_return_slug`, given what `ensure_application_running`
      returned: the slug, or the message of the step that failed.  A slug
      comes only from a running application and is truthy; the only
      messages are the two fixed ones. */
  function SlugOrError(running: Outcome<bool>, create: Response): (r: Outcome<Result<Json, string>>)
    ensures r.Returns? && r.value.Ok? ==>
              running == Returns(true) && CreateQuery(create) == Returns(r.value.value) && Truthy(r.value.value)
    ensures r.Returns? && r.value.Err? ==> r.value.error in {StartFailedMessage, CreateFailedMessage}
    ensures running == Returns(false) ==> r == Returns(Err(StartFailedMessage))
  {
    var up :- running;
    if !up then Returns(Err(StartFailedMessage)) else
    var slug :- CreateQuery(create);
    if !Truthy(slug) then Returns(Err(CreateFailedMessage)) else Returns(Ok(slug))
  }

  /** The create route, from the cache `active` it starts from.  It
      answers 400 exactly when validation rejects the body; a 500 with a
      message carries one of the two fixed texts; a created query leaves the
      cache set. */
  function CreateQueryResponse(active: bool, body: Json, app: AppScript, create: Response): (h: Handled)
    requires |app.polls| >= ApplicationMaxRetries
    ensures h.reply.Status() == 400 <==> ValidateCreate(body).Returns? && ValidateCreate(body).value.Err?
    ensures h.reply.Failed? ==> h.reply.message in {StartFailedMessage, CreateFailedMessage}
    ensures h.reply.Created? ==> h.active
    ensures !h.reply.Page? && !h.reply.ExecutionFailed?
  {
    match ValidateCreate(body)
    case Raises => Handled(Uncaught, active)
    case Returns(Err(message)) => Handled(BadRequest(message), active)
    case Returns(Ok(src)) =>
      var run := EnsureRunning(active, app);
      match SlugOrError(run.result, create)
      case Raises => Handled(Uncaught, run.active)
      case Returns(Err(message)) => Handled(Failed(message), run.active)
      case Returns(Ok(slug)) => Handled(Created(slug, SqlText(src)), run.active)
  }

  /** The results route, from the cache `active` it starts from.  It
      answers 400 exactly when the page number is rejected; a page or an
      execution error names the slug asked for and a page of at least 1,
      with the cache set; a start failure leaves the cache empty. */
  function ResultsResponse(active: bool, slug: string, pageArg: Option<string>, app: AppScript, exec: ExecScript): (h: Handled)
    requires |app.polls| >= ApplicationMaxRetries && |exec.polls| >= ExecutionMaxRetries
    ensures h.reply.Status() == 400 <==> ValidatePageNumber(pageArg).Err?
    ensures h.reply.Page? || h.reply.ExecutionFailed? ==>
              h.reply.query == slug && h.reply.page >= 1 && h.active
    ensures h.reply.Failed? ==> h.reply.message == StartFailedMessage && !h.active
    ensures !h.reply.Created?
  {
    match ValidatePageNumber(pageArg)
    case Err(message) => Handled(BadRequest(message), active)
    case Ok(page) =>
      var run := EnsureRunning(active, app);
      match run.result
      case Raises => Handled(Uncaught, run.active)
      case Returns(false) => Handled(Failed(StartFailedMessage), run.active)
      case Returns(true) =>
        match ExecuteQueryOutcome(exec).result
        case Raises => Handled(Uncaught, run.active)
        case Returns(Err(details)) => Handled(ExecutionFailed(slug, page, details), run.active)
        case Returns(Ok(rows)) => Handled(Page(slug, page, rows), run.active)
  }

  /** `create_query_and_return_slug`: ensure the application, then create
      the query. */
  method CreateQueryAndReturnSlug(cache: ApplicationStatusCache, app: AppScript, create: Response)
    returns (r: Outcome<Result<Json, string>>)
    requires |app.polls| >= ApplicationMaxRetries
    modifies cache
    ensures r == SlugOrError(EnsureRunning(old(cache.active), app).result, create)
    ensures cache.active == EnsureRunning(old(cache.active), app).active
  {
    var running, checks := cache.EnsureApplicationRunning(app);
    if running.Raises? {
      return Raises;
    }
    if !running.value {
      return Returns(Err(StartFailedMessage));
    }
    var slug := CreateQuery(create);
    if slug.Raises? {
      return Raises;
    }
    if !Truthy(slug.value) {
      return Returns(Err(CreateFailedMessage));
    }
    return Returns(Ok(slug.value));
  }

  /** `POST /api/queries`. */
  method CreateQueryEndpoint(cache: ApplicationStatusCache, body: Json, app: AppScript, create: Response)
    returns (reply: Reply)
    requires |app.polls| >= ApplicationMaxRetries
    modifies cache
    ensures Handled(reply, cache.active) == CreateQueryResponse(old(cache.active), body, app, create)
  {
    var checked := ValidateCreate(body);
    if checked.Raises? {
      return Uncaught;
    }
    if checked.value.Err? {
      return BadRequest(checked.value.error);
    }
    var sql := SqlText(checked.value.value);
    var created := CreateQueryAndReturnSlug(cache, app, create);
    if created.Raises? {
      return Uncaught;
    }
    if created.value.Err? {
      return Failed(created.value.error);
    }
    return Created(created.value.value, sql);
  }

  /** `GET /api/queries/<slug>/results`. */
  method ExecuteQueryEndpoint(cache: ApplicationStatusCache, slug: string, pageArg: Option<string>, app: AppScript, exec: ExecScript)
    returns (reply: Reply)
    requires |app.polls| >= ApplicationMaxRetries && |exec.polls| >= ExecutionMaxRetries
    modifies cache
    ensures Handled(reply, cache.active) == ResultsResponse(old(cache.active), slug, pageArg, app, exec)
  {
    var page := ValidatePageNumber(pageArg);
    if page.Err? {
      return BadRequest(page.error);
    }
    var running, checks := cache.EnsureApplicationRunning(app);
    if running.Raises? {
      return Uncaught;
    }
    if !running.value {
      return Failed(StartFailedMessage);
    }
    var result, polls := ExecuteQuery(exec);
    if result.Raises? {
      return Uncaught;
    }
    if result.value.Err? {
      return ExecutionFailed(slug, page.value, result.value.error);
    }
    return Page(slug, page.value, result.value.value);
  }

  // ---------------------------------------------------------------------
  // Properties of the two routes.

  /** A rejected create body is answered with 400 before anything upstream
      is asked: the reply and the cache do not depend on the upstream's
      answers. */
  lemma CreateRejectionSkipsUpstream(active: bool, body: Json, app: AppScript, create: Response,
                                     app': AppScript, create': Response)
    requires |app.polls| >= ApplicationMaxRetries && |app'.polls| >= ApplicationMaxRetries
    requires ValidateCreate(body).Returns? && ValidateCreate(body).value.Err?
    ensures CreateQueryResponse(active, body, app, create).reply.Status() == 400
    ensures CreateQueryResponse(active, body, app, create) == CreateQueryResponse(active, body, app', create')
    ensures CreateQueryResponse(active, body, app, create).active == active
  {
  }

  /** A 200 from the create route means: the body was valid, the
      application was confirmed or brought up, the upstream returned a
      truthy slug, and the reply echoes that slug and the SQL sent (in table
      mode, the built query). */
  lemma CreatedMeans(active: bool, body: Json, app: AppScript, create: Response)
    requires |app.polls| >= ApplicationMaxRetries
    ensures var h := CreateQueryResponse(active, body, app, create);
            h.reply.Status() == 200 <==> h.reply.Created?
    ensures var h := CreateQueryResponse(active, body, app, create);
            h.reply.Created? ==>
              ValidateCreate(body).Returns? && ValidateCreate(body).value.Ok?
              && EnsureRunning(active, app).result == Returns(true) && h.active
              && CreateQuery(create) == Returns(h.reply.slug) && Truthy(h.reply.slug)
              && h.reply.sql == SqlText(ValidateCreate(body).value.value)
  {
    CacheSetOnlyOnActive(active, app);
  }

  /** Table mode sends the query `build_sql_query` makes of the layer, the
      table and the converted limit: no `LIMIT` line without a limit, and
      the integer the limit converts to when it is positive. */
  lemma TableModeSendsBuiltQuery(data: map<string, Json>, active: bool, app: AppScript, create: Response)
    requires |app.polls| >= ApplicationMaxRetries
    requires !Truthy(DictGet(data, "sql_query"))
    requires Truthy(DictGet(data, "layer")) && Truthy(DictGet(data, "table"))
    ensures var h := CreateQueryResponse(active, JObj(data), app, create);
            h.reply.Created? && DictGet(data, "limit") == JNull ==>
              h.reply.sql == JStr(BuildSqlQuery(Str(data["layer"]), Str(data["table"]), None))
    ensures var h := CreateQueryResponse(active, JObj(data), app, create);
            var limit := DictGet(data, "limit");
            h.reply.Created? && limit != JNull ==>
              IntOf(limit).Returns? && IntOf(limit).value > 0
              && h.reply.sql == JStr(BuildSqlQuery(Str(data["layer"]), Str(data["table"]), Some(IntOf(limit).value)))
  {
    LimitValidation(data);
  }

  /** When the application is up but the create POST fails, the reply is
      the fixed 500 message, whatever the upstream said. */
  lemma CreateFailureIsGeneric(active: bool, body: Json, app: AppScript, create: Response)
    requires |app.polls| >= ApplicationMaxRetries
    requires ValidateCreate(body).Returns? && ValidateCreate(body).value.Ok?
    requires EnsureRunning(active, app).result == Returns(true) && !create.Success()
    ensures CreateQueryResponse(active, body, app, create).reply == Failed("Failed to create query")
  {
  }

  /** A readiness check that returns False gives the fixed 500 message on
      both routes, before the query is created or executed. */
  lemma StartFailureReported(active: bool, body: Json, slug: string, pageArg: Option<string>,
                             app: AppScript, create: Response, exec: ExecScript)
    requires |app.polls| >= ApplicationMaxRetries && |exec.polls| >= ExecutionMaxRetries
    requires EnsureRunning(active, app).result == Returns(false)
    ensures ValidateCreate(body).Returns? && ValidateCreate(body).value.Ok? ==>
              CreateQueryResponse(active, body, app, create) == Handled(Failed("Failed to start application"), false)
    ensures ValidatePageNumber(pageArg).Ok? ==>
              ResultsResponse(active, slug, pageArg, app, exec) == Handled(Failed("Failed to start application"), false)
  {
    CacheSetOnlyOnActive(active, app);
  }

  /** A bad page number is answered with 400 before anything upstream is
      asked. */
  lemma PageRejectionSkipsUpstream(active: bool, slug: string, pageArg: Option<string>,
                                   app: AppScript, exec: ExecScript, app': AppScript, exec': ExecScript)
    requires |app.polls| >= ApplicationMaxRetries && |exec.polls| >= ExecutionMaxRetries
    requires |app'.polls| >= ApplicationMaxRetries && |exec'.polls| >= ExecutionMaxRetries
    requires ValidatePageNumber(pageArg).Err?
    ensures ResultsResponse(active, slug, pageArg, app, exec) == ResultsResponse(active, slug, pageArg, app', exec')
    ensures ResultsResponse(active, slug, pageArg, app, exec).reply.Status() == 400
    ensures ResultsResponse(active, slug, pageArg, app, exec).active == active
  {
  }

  /** A page reply carries the page asked for (1 when absent) and exactly
      the decoded rows, an empty page included; an error reply carries the
      message `execute_query` returned. */
  lemma ResultsReplyMeans(active: bool, slug: string, pageArg: Option<string>, app: AppScript, exec: ExecScript)
    requires |app.polls| >= ApplicationMaxRetries && |exec.polls| >= ExecutionMaxRetries
    ensures var h := ResultsResponse(active, slug, pageArg, app, exec);
            h.reply.Page? ==>
              ValidatePageNumber(pageArg) == Ok(h.reply.page) && h.reply.page >= 1 && h.reply.query == slug
              && EnsureRunning(active, app).result == Returns(true)
              && ExecuteQueryOutcome(exec).result == Returns(Ok(h.reply.rows))
    ensures var h := ResultsResponse(active, slug, pageArg, app, exec);
            h.reply.ExecutionFailed? ==>
              ExecuteQueryOutcome(exec).result == Returns(Err(h.reply.details))
    ensures var h := ResultsResponse(active, slug, pageArg, app, exec);
            pageArg.None? && EnsureRunning(active, app).result == Returns(true)
            && ExecuteQueryOutcome(exec).result.Returns? ==>
              (h.reply.Page? || h.reply.ExecutionFailed?) && h.reply.page == 1
  {
  }

  /** An unknown query: the execution POST answers 404 with
      `{"detail": "Not found"}`, and the caller sees that detail, for
      whichever valid page was asked for. */
  lemma UnknownQueryExample(active: bool, slug: string, pageArg: Option<string>, app: AppScript, exec: ExecScript)
    requires |app.polls| >= ApplicationMaxRetries && |exec.polls| >= ExecutionMaxRetries
    requires ValidatePageNumber(pageArg).Ok?
    requires EnsureRunning(active, app).result == Returns(true)
    requires exec.trigger == Response(404, Parsed(JObj(map["detail" := JStr("Not found")])), "{\"detail\": \"Not found\"}")
    ensures ResultsResponse(active, slug, pageArg, app, exec).reply
            == ExecutionFailed(slug, ValidatePageNumber(pageArg).value, JStr("Not found"))
  {
    var m := map["detail" := JStr("Not found")];
    assert "errors" !in m && "detail" in m;
    FirstPresentKeyWins(ExecutionRequest, exec.trigger, m, 0);
  }
}
