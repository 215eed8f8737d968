/**
 * JSON values as the Python code sees them after `response.json()`, with the
 * Python operations the code applies to them: truthiness, `in`, `.get`, `str()`.
 */
module Json {
  import opened Wrappers
  import Text

  datatype Json =
    | JNull
    | JBool(b: bool)
    | JInt(i: int)
    | JStr(s: string)
    | JList(items: seq<Json>)
    | JObject(fields: map<string, Json>)

  /** Python truthiness: `None`, `False`, `0`, `""`, `[]` and `{}` are false. */
  predicate Truthy(j: Json) {
    match j
    case JNull => false
    case JBool(b) => b
    case JInt(i) => i != 0
    case JStr(s) => s != ""
    case JList(items) => items != []
    case JObject(fields) => fields != map[]
  }

  /** `key in j` and `j[key]` on an object; any other value has no fields. */
  function Field(j: Json, key: string): Option<Json> {
    if j.JObject? && key in j.fields then Some(j.fields[key]) else None
  }

  predicate Has(j: Json, key: string) {
    Field(j, key).Some?
  }

  /** `j.get(key, default)`. */
  function GetOr(j: Json, key: string, default: Json): Json {
    Field(j, key).GetOr(default)
  }

  /** `j.get(key)`: `None` when the key is absent. */
  function Get(j: Json, key: string): Json {
    GetOr(j, key, JNull)
  }

  /**
   * The integer a value counts as in `x + n`: an int as is, and `True`/`False` as 1/0,
   * since Python's bool is an int. `None` where the addition raises a `TypeError`
   * (`null`, strings, lists, objects).
   */
  function IntValue(j: Json): (r: Option<int>)
    ensures j.JInt? ==> r == Some(j.i)
    ensures j.JNull? || j.JStr? || j.JList? || j.JObject? ==> r.None?
  {
    match j
    case JInt(n) => Some(n)
    case JBool(b) => Some(if b then 1 else 0)
    case _ => None
  }

  /** The elements a `for` loop visits when the value is a list; nothing otherwise. */
  function Elements(j: Json): seq<Json> {
    if j.JList? then j.items else []
  }

  /** `x[0] if x else None` on a list. */
  function FirstOrNone(j: Json): Json {
    if j.JList? && j.items != [] then j.items[0] else JNull
  }

  /** Python's `str(x)`; arrays and objects are rendered by a fixed placeholder. */
  function Str(j: Json): string {
    match j
    case JNull => "None"
    case JBool(b) => if b then "True" else "False"
    case JInt(i) => Text.IntToString(i)
    case JStr(s) => s
    case JList(_) => "[...]"
    case JObject(_) => "{...}"
  }
}
