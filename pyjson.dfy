/**
 * The values `json.loads` produces, and the handful of Python operations the
 * recogniser applies to them: `dict.get` with a default, truth testing, the
 * `in` operator, `str()` and `type(v).__name__`. Operations that raise in
 * Python (calling `.get` on something that is not a dict, `in` on a number)
 * give `Raised` with the text Python puts in the exception.
 */
module PyJson {
  import opened PyText

  /** A decoded JSON document: null, booleans, integers, strings, lists, objects. */
  datatype Json =
    | JNull
    | JBool(b: bool)
    | JInt(i: int)
    | JStr(s: string)
    | JArr(items: seq<Json>)
    | JObj(fields: map<string, Json>)

  /** The result of evaluating a Python expression that may raise. */
  datatype Eval<+T> = Value(value: T) | Raised(message: string)

  const EmptyObj: Json := JObj(map[])

  /** `type(v).__name__`. */
  function TypeName(v: Json): string {
    match v
    case JNull => "NoneType"
    case JBool(_) => "bool"
    case JInt(_) => "int"
    case JStr(_) => "str"
    case JArr(_) => "list"
    case JObj(_) => "dict"
  }

  /** `dict.get(key, default)` on the fields of a dict. */
  function Lookup(fields: map<string, Json>, key: string, default: Json): Json {
    if key in fields then fields[key] else default
  }

  /** `v.get(key, default)`: only a dict has `.get`; anything else raises AttributeError. */
  function Get(v: Json, key: string, default: Json): Eval<Json> {
    match v
    case JObj(fields) => Value(Lookup(fields, key, default))
    case _ => Raised("'" + TypeName(v) + "' object has no attribute 'get'")
  }

  /** Python truth testing: `None`, `False`, `0`, and empty strings, lists and dicts are false. */
  predicate Truthy(v: Json) {
    match v
    case JNull => false
    case JBool(b) => b
    case JInt(i) => i != 0
    case JStr(s) => s != ""
    case JArr(items) => items != []
    case JObj(fields) => fields != map[]
  }

  /**
   * `needle in v` for a string needle: substring test on a string, element test on a
   * list, key test on a dict; TypeError on anything else.
   */
  function In(needle: string, v: Json): Eval<bool> {
    match v
    case JStr(s) => Value(Contains(s, needle))
    case JArr(items) => Value(JStr(needle) in items)
    case JObj(fields) => Value(needle in fields)
    case _ => Raised("argument of type '" + TypeName(v) + "' is not iterable")
  }

  /**
   * `str(v)`. Exact for null, booleans, integers and strings; a list or dict is
   * rendered as a placeholder (see README, "Left out").
   */
  function Str(v: Json): string {
    match v
    case JNull => "None"
    case JBool(b) => if b then "True" else "False"
    case JInt(i) => IntText(i)
    case JStr(s) => s
    case JArr(_) => "[...]"
    case JObj(_) => "{...}"
  }
}
