/** Responses of the upstream analytics service, and the condensation of a
    failed response into the single error message handed to the caller
    (main.py:146-163, 190-202, 232-244).  The three copies in the source
    share one precedence chain and differ in two places: whether a
    top-level `error` key is consulted, and the generic fallback text. */
module Upstream {
  import opened Common
  import opened Text
  import opened PyJson

  /** What `response.json()` would make of the body. */
  datatype Body = Parsed(value: Json) | NotJson

  /** An upstream HTTP response: status code, body, raw body text. */
  datatype Response = Response(code: int, body: Body, text: string) {
    /** 200 and 201 are the success codes of every upstream API call. */
    predicate Success() {
      code == 200 || code == 201
    }
  }

  /** `response.json()`: raises when the body is not JSON. */
  function JsonOf(r: Response): Outcome<Json> {
    match r.body
    case Parsed(v) => Returns(v)
    case NotJson => Raises
  }

  /** The three calls whose failures are condensed into a message. */
  datatype Call =
    | ExecutionRequest   // POST queries/<slug>/execution/
    | StatusCheck        // GET queries/<slug>/execution/<id>/ inside the poll loop
    | ResultsFetch       // GET queries/<slug>/execution/<id>/results/

  /** The message used when nothing better can be extracted. */
  function GenericMessage(call: Call, code: int): string {
    match call
    case ExecutionRequest => "Request failed with status code " + IntToString(code)
    case StatusCheck => "Failed to check execution status: " + IntToString(code)
    case ResultsFetch => "Failed to get results: " + IntToString(code)
  }

  /** Top-level keys tried, in order, after `errors[0].detail`. */
  function FallbackKeys(call: Call): seq<string> {
    if call == ExecutionRequest then ["detail", "message", "error"] else ["detail", "message"]
  }

  /** The first test of the chain: `"errors" in body and
      len(body["errors"]) > 0 and "detail" in body["errors"][0]`, then
      `body["errors"][0]["detail"]`; any step may raise. */
  function ErrorsDetail(body: Json): Outcome<Option<Json>> {
    var hasErrors :- Contains(body, "errors");
    if !hasErrors then Returns(None) else
    var errors :- Subscript(body, "errors");
    var count :- Len(errors);
    if count == 0 then Returns(None) else
    var first :- First(errors);
    var hasDetail :- Contains(first, "detail");
    if !hasDetail then Returns(None) else
    var detail :- Subscript(first, "detail");
    Returns(Some(detail))
  }

  /** The `elif key in body: body[key]` branches, in the order of `keys`. */
  function FirstPresent(body: Json, keys: seq<string>): Outcome<Option<Json>>
    decreases |keys|
  {
    if keys == [] then Returns(None) else
    var present :- Contains(body, keys[0]);
    if present then
      var value :- Subscript(body, keys[0]);
      Returns(Some(value))
    else
      FirstPresent(body, keys[1..])
  }

  /** The whole `try` block: decode the body, then run the chain. */
  function Lookup(call: Call, r: Response): Outcome<Option<Json>> {
    var body :- JsonOf(r);
    var fromErrors :- ErrorsDetail(body);
    if fromErrors.Some? then Returns(fromErrors) else FirstPresent(body, FallbackKeys(call))
  }

  /** Where the final message comes from. */
  datatype Source = FromBody(value: Json) | FromText(text: string) | Generic

  /** A value found by the chain wins; if the `try` block raised (the bare
      `except:` catches everything) a non-empty raw text wins; otherwise the
      generic message stays. */
  function MessageSource(call: Call, r: Response): Source {
    match Lookup(call, r)
    case Returns(Some(v)) => FromBody(v)
    case Returns(None) => Generic
    case Raises => if r.text != "" then FromText(r.text) else Generic
  }

  /** The error message of a failed call.  It is whatever JSON value the
      body holds under the chosen key, so it need not be a string; but a
      message that is not a non-empty text can only have come from the body:
      the raw text is used only when it is not empty, and the generic text
      never is. */
  function ErrorMessage(call: Call, r: Response): (m: Json)
    ensures !(m.JStr? && m.s != "") ==> MessageSource(call, r).FromBody?
  {
    match MessageSource(call, r)
    case FromBody(v) => v
    case FromText(t) => JStr(t)
    case Generic => JStr(GenericMessage(call, r.code))
  }

  // ---------------------------------------------------------------------
  // The precedence, stated on dict bodies without reference to the chain.

  /** `errors[0].detail` of a dict body whose `errors` is a non-empty list
      whose first entry is an object with a `detail` key. */
  function ErrorsEntryDetail(m: map<string, Json>): Option<Json> {
    if "errors" in m && m["errors"].JArr? && m["errors"].items != []
       && m["errors"].items[0].JObj? && "detail" in m["errors"].items[0].fields
    then Some(m["errors"].items[0].fields["detail"])
    else None
  }

  /** A dict body whose `errors` entry, when present, is a list whose first
      entry (if any) is an object: the shape the chain is written for. */
  predicate ErrorsWellShaped(m: map<string, Json>) {
    "errors" in m ==> m["errors"].JArr? && (m["errors"].items != [] ==> m["errors"].items[0].JObj?)
  }

  lemma {:induction false} FirstPresentFindsKey(m: map<string, Json>, keys: seq<string>, i: nat)
    requires i < |keys| && keys[i] in m
    requires forall j :: 0 <= j < i ==> keys[j] !in m
    ensures FirstPresent(JObj(m), keys) == Returns(Some(m[keys[i]]))
    decreases i
  {
    if i > 0 {
      FirstPresentFindsKey(m, keys[1..], i - 1);
    }
  }

  lemma {:induction false} FirstPresentFindsNothing(m: map<string, Json>, keys: seq<string>)
    requires forall k :: k in keys ==> k !in m
    ensures FirstPresent(JObj(m), keys) == Returns(None)
    decreases |keys|
  {
    if keys != [] {
      FirstPresentFindsNothing(m, keys[1..]);
    }
  }

  /** `errors[0].detail` beats every top-level key. */
  lemma ErrorsDetailWins(call: Call, r: Response, m: map<string, Json>)
    requires r.body == Parsed(JObj(m)) && ErrorsEntryDetail(m).Some?
    ensures ErrorMessage(call, r) == ErrorsEntryDetail(m).value
  {
  }

  /** Otherwise the first fallback key present in the body gives the message. */
  lemma FirstPresentKeyWins(call: Call, r: Response, m: map<string, Json>, i: nat)
    requires r.body == Parsed(JObj(m)) && ErrorsWellShaped(m) && ErrorsEntryDetail(m).None?
    requires i < |FallbackKeys(call)| && FallbackKeys(call)[i] in m
    requires forall j :: 0 <= j < i ==> FallbackKeys(call)[j] !in m
    ensures ErrorMessage(call, r) == m[FallbackKeys(call)[i]]
  {
    assert ErrorsDetail(JObj(m)) == Returns(None);
    FirstPresentFindsKey(m, FallbackKeys(call), i);
  }

  /** A well-shaped dict body naming none of the keys gives the generic
      message carrying the status code, whatever the raw text is. */
  lemma NoKeyGivesGeneric(call: Call, r: Response, m: map<string, Json>)
    requires r.body == Parsed(JObj(m)) && ErrorsWellShaped(m) && ErrorsEntryDetail(m).None?
    requires forall k :: k in FallbackKeys(call) ==> k !in m
    ensures ErrorMessage(call, r) == JStr(GenericMessage(call, r.code))
  {
    assert ErrorsDetail(JObj(m)) == Returns(None);
    FirstPresentFindsNothing(m, FallbackKeys(call));
  }

  /** A body that is not JSON gives its raw text, unless that is empty. */
  lemma NotJsonGivesText(call: Call, r: Response)
    requires r.body == NotJson
    ensures r.text != "" ==> ErrorMessage(call, r) == JStr(r.text)
    ensures r.text == "" ==> ErrorMessage(call, r) == JStr(GenericMessage(call, r.code))
  {
  }

  /** The status-check and results copies run the same chain; only their
      generic texts differ. */
  lemma StatusAndResultsChainsAgree(r: Response)
    ensures MessageSource(StatusCheck, r) == MessageSource(ResultsFetch, r)
  {
  }

  /** The execution-request copy departs from the status-check copy only
      when the latter finds nothing and the body answers `"error" in body`. */
  lemma ErrorKeyIsTheOnlyDifference(r: Response)
    ensures MessageSource(ExecutionRequest, r) != MessageSource(StatusCheck, r) ==>
              MessageSource(StatusCheck, r) == Generic && r.body.Parsed?
              && Contains(r.body.value, "error") == Returns(true)
  {
    if r.body.Parsed? {
      var body := r.body.value;
      assert FallbackKeys(ExecutionRequest)[1..] == ["message", "error"];
      assert FallbackKeys(ExecutionRequest)[1..][1..] == ["error"];
      assert FallbackKeys(StatusCheck)[1..] == ["message"];
    }
  }

  // ---------------------------------------------------------------------
  // What a status poll loop observes: the body it starts from, then the
  // answer of each status GET it issues.

  /** The status of a body that is a dict; `None` for anything else. */
  function StatusOfDict(v: Json): Option<Json> {
    if v.JObj? then Some(DictGet(v.fields, "status")) else None
  }

  /** The status a status GET reports when it succeeds with a dict body. */
  function HealthyStatus(r: Response): Option<Json> {
    if r.Success() && r.body.Parsed? then StatusOfDict(r.body.value) else None
  }

  /** The `i`-th status a poll loop observes: that of the body it starts
      from for 0, that of the `i`-th status GET after it. */
  function Observation(data: Json, polls: seq<Response>, i: nat): Option<Json>
    requires i <= |polls|
  {
    if i == 0 then StatusOfDict(data) else HealthyStatus(polls[i - 1])
  }

  lemma ObservationShift(data: Json, polls: seq<Response>, i: nat)
    requires i < |polls| && polls[0].Success() && polls[0].body.Parsed?
    ensures Observation(data, polls, i + 1) == Observation(polls[0].body.value, polls[1..], i)
  {
    if i > 0 {
      assert polls[1..][i - 1] == polls[i];
    }
  }

}
