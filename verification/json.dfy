/** JSON values as Python's `json` module hands them to the normaliser, with
    the three Python idioms the normaliser leans on: truthiness, `dict.get`
    and the `x or {}` fallback followed by a `.get` call. */
module Json {
  import opened Results

  /** A decoded JSON value. Numbers with a fraction or exponent are kept as the
      exact decimal `mantissa * 10^exponent`; the model never computes with
      them, it only copies them and asks whether they are zero. */
  datatype Json =
    | JNull
    | JBool(b: bool)
    | JInt(i: int)
    | JNum(mantissa: int, exponent: int)
    | JStr(s: string)
    | JArr(items: seq<Json>)
    | JObj(fields: map<string, Json>)

  /** The exception Python raises when a value has the wrong shape; `at`
      names the JSON field whose value had it. */
  datatype Fault =
    | AttributeError(at: string)
    | TypeError(at: string)
    | KeyError(at: string)

  /** Python's `bool(v)`: None, False, zero and empty containers are false. */
  predicate Truthy(v: Json) {
    match v
    case JNull => false
    case JBool(b) => b
    case JInt(i) => i != 0
    case JNum(m, _) => m != 0
    case JStr(s) => |s| > 0
    case JArr(a) => |a| > 0
    case JObj(o) => |o| > 0
  }

  /** `o.get(key)`: an absent key reads as None, just like an explicit null. */
  function Get(o: map<string, Json>, key: string): Json {
    if key in o then o[key] else JNull
  }

  /** True when `v or {}` is something `.get` can be called on. */
  predicate ObjectOrFalsy(v: Json) {
    !Truthy(v) || v.JObj?
  }

  /** The dictionary `v or {}` evaluates to, as far as `.get` is concerned. */
  function FieldsOr(v: Json): map<string, Json> {
    if v.JObj? then v.fields else map[]
  }

  /** `(v or {}).get(...)`: a falsy `v` becomes the empty dict, an object is
      used as it is, and any other truthy value has no `.get` method. */
  function DictOrEmpty(v: Json, at: string): (r: Result<map<string, Json>, Fault>)
    ensures r.Ok? <==> ObjectOrFalsy(v)
    ensures r.Ok? ==> forall k :: Get(r.value, k) == (if v.JObj? then Get(v.fields, k) else JNull)
    ensures r.Err? ==> r.error == AttributeError(at)
  {
    if !Truthy(v) then Ok(map[])
    else if v.JObj? then Ok(v.fields)
    else Err(AttributeError(at))
  }

  /** The value at a path of keys, reading None as soon as a step does not
      land on an object: the null-safe nested lookup the rows are defined by. */
  function At(v: Json, path: seq<string>): Json
    decreases |path|
  {
    if |path| == 0 then v
    else if v.JObj? then At(Get(v.fields, path[0]), path[1..])
    else JNull
  }
}
