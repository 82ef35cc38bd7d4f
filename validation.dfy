/** Input validation of the two authenticated routes: the JSON body of the
    create-query route (main.py:355-401) and the `page_number` argument of
    the results route (main.py:426-431).  A rejection is a 400 with the
    message carried by `Err`. */
module RequestValidation {
  import opened Common
  import opened Text
  import opened PyJson

  /** The two mutually exclusive ways of naming a query. */
  datatype QuerySource =
    | RawSql(sql: Json)                                     // `sql_query` as given
    | TableSpec(layer: Json, table: Json, limit: Option<int>)  // to be built into SQL

  const NoJsonMessage: string := "No JSON data provided"
  const MissingLayerMessage: string := "Missing required parameter 'layer' when 'sql_query' is not provided"
  const MissingTableMessage: string := "Missing required parameter 'table' when 'sql_query' is not provided"
  const LimitNotPositiveMessage: string := "Limit must be a positive integer"
  const LimitNotIntegerMessage: string := "Limit must be a valid integer"
  const PageNotPositiveMessage: string := "Page number must be a positive integer"
  const PageNotIntegerMessage: string := "Page number must be a valid integer"

  /** The parameters of the table mode, in the order they are reported. */
  const TableParameters: seq<string> := ["layer", "table", "limit"]

  function DisallowedMessage(params: seq<string>): string {
    "When 'sql_query' is provided, these parameters are not allowed: " + Join(params, ", ")
  }

  /** `a` is `b` with some elements left out, order kept. */
  predicate IsSubsequence(a: seq<string>, b: seq<string>)
    decreases |b|
  {
    if a == [] then true
    else if b == [] then false
    else if a[0] == b[0] then IsSubsequence(a[1..], b[1..])
    else IsSubsequence(a, b[1..])
  }

  /** `[p for p in candidates if p in data]`. */
  function PresentKeys(candidates: seq<string>, data: map<string, Json>): (present: seq<string>)
    ensures forall k :: k in present <==> k in candidates && k in data
    ensures IsSubsequence(present, candidates)
    decreases |candidates|
  {
    if candidates == [] then []
    else
      var rest := PresentKeys(candidates[1..], data);
      if candidates[0] in data then
        assert ([candidates[0]] + rest)[1..] == rest;
        [candidates[0]] + rest
      else
        assert rest == [] || rest[0] != candidates[0];
        rest
  }

  /** The create-query body.  A falsy body is rejected; a truthy body that
      is not a dict makes `data.get` raise.  A truthy `sql_query` selects the
      raw mode, which admits none of the table parameters (a key that is
      present counts, whatever its value).  Otherwise `layer`, then `table`,
      must be truthy, and a `limit` that is not null must convert to an
      integer (`int()` raising is one message, a value of at most zero the
      other). */
  function ValidateCreate(body: Json): (r: Outcome<Result<QuerySource, string>>)
    ensures r.Returns? <==> !Truthy(body) || body.JObj?
    ensures r == Returns(Err(NoJsonMessage)) <== !Truthy(body)
    ensures r.Returns? && r.value.Ok? && r.value.value.RawSql? ==>
              Truthy(r.value.value.sql) && forall k :: k in TableParameters ==> k !in body.fields
    ensures r.Returns? && r.value.Ok? && r.value.value.TableSpec? ==>
              var spec := r.value.value;
              Truthy(spec.layer) && Truthy(spec.table) && (spec.limit.Some? ==> spec.limit.value > 0)
    ensures r.Returns? && r.value.Ok? ==>
              match r.value.value
              case RawSql(sql) => sql == DictGet(body.fields, "sql_query")
              case TableSpec(layer, table, _) => layer == DictGet(body.fields, "layer") && table == DictGet(body.fields, "table")
  {
    if !Truthy(body) then Returns(Err(NoJsonMessage))
    else match body
      case JObj(data) => Returns(ValidateFields(data))
      case _ => Raises
  }

  /** The checks on a dict body.  A rejection carries the disallowed-key
      message or one of the four fixed texts of the table mode; the mode is
      chosen by the truthiness of `sql_query` alone. */
  function ValidateFields(data: map<string, Json>): (r: Result<QuerySource, string>)
    ensures r.Err? ==>
              r.error == DisallowedMessage(PresentKeys(TableParameters, data))
              || r.error in {MissingLayerMessage, MissingTableMessage, LimitNotPositiveMessage, LimitNotIntegerMessage}
    ensures r.Ok? ==> (r.value.RawSql? <==> Truthy(DictGet(data, "sql_query")))
  {
    var sql := DictGet(data, "sql_query");
    if Truthy(sql) then
      var disallowed := PresentKeys(TableParameters, data);
      if disallowed != [] then Err(DisallowedMessage(disallowed)) else Ok(RawSql(sql))
    else
      var layer := DictGet(data, "layer");
      var table := DictGet(data, "table");
      var limit := DictGet(data, "limit");
      if !Truthy(layer) then Err(MissingLayerMessage)
      else if !Truthy(table) then Err(MissingTableMessage)
      else if limit == JNull then Ok(TableSpec(layer, table, None))
      else
        match IntOf(limit)
        case Raises => Err(LimitNotIntegerMessage)
        case Returns(n) => if n <= 0 then Err(LimitNotPositiveMessage) else Ok(TableSpec(layer, table, Some(n)))
  }

  /** In raw mode the body is rejected exactly when some table parameter is
      present, and the message lists exactly the present ones, in the order
      layer, table, limit. */
  lemma MixedModesRejected(data: map<string, Json>)
    requires Truthy(DictGet(data, "sql_query"))
    ensures var present := PresentKeys(TableParameters, data);
            (forall k :: k in present <==> k in TableParameters && k in data)
            && IsSubsequence(present, TableParameters)
            && (present != [] ==> ValidateCreate(JObj(data)) == Returns(Err(DisallowedMessage(present))))
            && (present == [] ==> ValidateCreate(JObj(data)) == Returns(Ok(RawSql(data["sql_query"]))))
  {
    assert data != map[];
  }

  /** A missing `layer` is reported even when `table` is missing too. */
  lemma LayerReportedBeforeTable(data: map<string, Json>)
    requires !Truthy(DictGet(data, "sql_query")) && !Truthy(DictGet(data, "layer"))
    ensures data != map[] ==> ValidateCreate(JObj(data)) == Returns(Err(MissingLayerMessage))
  {
  }

  /** With a truthy layer, a missing or falsy table is reported, whatever
      the limit is. */
  lemma MissingTableReported(data: map<string, Json>)
    requires !Truthy(DictGet(data, "sql_query"))
    requires Truthy(DictGet(data, "layer")) && !Truthy(DictGet(data, "table"))
    ensures ValidateCreate(JObj(data)) == Returns(Err(MissingTableMessage))
  {
    assert "layer" in data;
  }

  /** The limit of the table mode: null or absent means no limit; otherwise
      it must convert to an integer, and that integer must be positive. */
  lemma LimitValidation(data: map<string, Json>)
    requires !Truthy(DictGet(data, "sql_query"))
    requires Truthy(DictGet(data, "layer")) && Truthy(DictGet(data, "table"))
    ensures var r := ValidateCreate(JObj(data));
            var limit := DictGet(data, "limit");
            (limit == JNull ==> r == Returns(Ok(TableSpec(data["layer"], data["table"], None))))
            && (limit != JNull && IntOf(limit).Raises? ==> r == Returns(Err(LimitNotIntegerMessage)))
            && (limit != JNull && IntOf(limit).Returns? && IntOf(limit).value <= 0 ==>
                  r == Returns(Err(LimitNotPositiveMessage)))
            && (limit != JNull && IntOf(limit).Returns? && IntOf(limit).value > 0 ==>
                  r == Returns(Ok(TableSpec(data["layer"], data["table"], Some(IntOf(limit).value)))))
  {
    assert "layer" in data;
  }

  /** A raw query with a layer beside it is refused, naming the layer. */
  lemma RawSqlWithLayerExample()
    ensures ValidateCreate(JObj(map["sql_query" := JStr("SELECT 1"), "layer" := JStr("x")]))
            == Returns(Err(DisallowedMessage(["layer"])))
  {
    var mixed := map["sql_query" := JStr("SELECT 1"), "layer" := JStr("x")];
    assert DictGet(mixed, "sql_query") == JStr("SELECT 1");
    assert "layer" in mixed && "table" !in mixed && "limit" !in mixed;
    var present := PresentKeys(TableParameters, mixed);
    assert present == ["layer"];
    assert Truthy(JObj(mixed));
  }

  /** A table mode body with only a layer is refused for its table. */
  lemma LayerWithoutTableExample()
    ensures ValidateCreate(JObj(map["layer" := JStr("x")])) == Returns(Err(MissingTableMessage))
  {
    var single := map["layer" := JStr("x")];
    assert DictGet(single, "sql_query") == JNull && DictGet(single, "table") == JNull;
    assert DictGet(single, "layer") == JStr("x");
  }

  /** `int(request.args.get("page_number", 1))`: an absent argument is page
      1; otherwise the text must parse as an integer of at least 1. */
  function ValidatePageNumber(arg: Option<string>): (r: Result<int, string>)
    ensures r.Ok? ==> r.value >= 1
    ensures arg.None? ==> r == Ok(1)
    ensures r.Ok? <==> arg.None? || (ParseInt(arg.value).Some? && ParseInt(arg.value).value >= 1)
    ensures r.Err? ==> r.error == (if ParseInt(arg.value).Some? then PageNotPositiveMessage else PageNotIntegerMessage)
  {
    match arg
    case None => Ok(1)
    case Some(text) =>
      match ParseInt(text)
      case None => Err(PageNotIntegerMessage)
      case Some(n) => if n < 1 then Err(PageNotPositiveMessage) else Ok(n)
  }

  /** Every positive page number, written in decimal, is accepted as itself. */
  lemma PageNumberAccepted(n: int)
    requires n >= 1
    ensures ValidatePageNumber(Some(IntToString(n))) == Ok(n)
  {
    IntToStringRoundTrip(n);
  }

  /** Page 0 and a non-number are refused, each with its own message. */
  lemma PageNumberExamples()
    ensures ValidatePageNumber(Some("0")) == Err(PageNotPositiveMessage)
    ensures ValidatePageNumber(Some("abc")) == Err(PageNotIntegerMessage)
  {
    assert !IsDigit('a');
  }
}
