/** Decoded JSON values (what `response.json()` and `request.json` give the
    service) and the handful of Python operations the service applies to
    them, with the exceptions those operations raise. */
module PyJson {
  import opened Common
  import opened Text

  /** A decoded JSON document.  Numbers are integers only. */
  datatype Json =
    | JNull
    | JBool(b: bool)
    | JNum(n: int)
    | JStr(s: string)
    | JArr(items: seq<Json>)
    | JObj(fields: map<string, Json>)

  /** Python truthiness (`if x:` / `if not x:`) of a decoded value. */
  predicate Truthy(v: Json) {
    match v
    case JNull => false
    case JBool(b) => b
    case JNum(n) => n != 0
    case JStr(s) => s != ""
    case JArr(xs) => xs != []
    case JObj(m) => m != map[]
  }

  /** `d.get(key)` on a dict.  A missing key gives `None`, and so does a
      key bound to JSON null, so both are `JNull` here. */
  function DictGet(m: map<string, Json>, key: string): Json {
    if key in m then m[key] else JNull
  }

  /** `v.get(key)`: only a dict has `.get`; on any other value Python
      raises `AttributeError`. */
  function Get(v: Json, key: string): Outcome<Json> {
    match v
    case JObj(m) => Returns(DictGet(m, key))
    case _ => Raises
  }

  /** `key in v` for a string key: key membership on a dict, element
      membership on a list, substring on a string; `TypeError` on a
      number, a boolean or `None`. */
  function Contains(v: Json, key: string): Outcome<bool> {
    match v
    case JObj(m) => Returns(key in m)
    case JArr(xs) => Returns(JStr(key) in xs)
    case JStr(s) => Returns(IsSubstring(key, s))
    case _ => Raises
  }

  /** `v[key]` for a string key: a dict answers for its own keys
      (`KeyError` otherwise); every other value raises `TypeError`. */
  function Subscript(v: Json, key: string): Outcome<Json> {
    match v
    case JObj(m) => if key in m then Returns(m[key]) else Raises
    case _ => Raises
  }

  /** `len(v)`: defined on dicts, lists and strings only. */
  function Len(v: Json): Outcome<nat> {
    match v
    case JObj(m) => Returns(|m|)
    case JArr(xs) => Returns(|xs|)
    case JStr(s) => Returns(|s|)
    case _ => Raises
  }

  /** `v[0]`: the first element of a list, the first character of a string;
      a dict raises `KeyError` (JSON keys are strings, never 0), an empty
      sequence `IndexError`, a scalar `TypeError`. */
  function First(v: Json): Outcome<Json> {
    match v
    case JArr(xs) => if xs != [] then Returns(xs[0]) else Raises
    case JStr(s) => if s != [] then Returns(JStr([s[0]])) else Raises
    case _ => Raises
  }

  /** `int(v)`: booleans are 0 and 1, numbers are themselves, strings are
      parsed; lists, dicts and `None` raise `TypeError`, an unparsable
      string raises `ValueError`. */
  function IntOf(v: Json): Outcome<int> {
    match v
    case JBool(b) => Returns(if b then 1 else 0)
    case JNum(n) => Returns(n)
    case JStr(s) =>
      (match ParseInt(s)
       case Some(n) => Returns(n)
       case None => Raises)
    case _ => Raises
  }

  /** `str(v)` as an f-string renders it: exact for strings, numbers,
      booleans and `None`; a list or dict stands as a fixed placeholder. */
  function Str(v: Json): string {
    match v
    case JNull => "None"
    case JBool(b) => if b then "True" else "False"
    case JNum(n) => IntToString(n)
    case JStr(s) => s
    case JArr(_) => "<list>"
    case JObj(_) => "<dict>"
  }
}
