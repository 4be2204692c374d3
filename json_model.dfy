/**
  JSON documents as Python's `json` module decodes them: dicts, lists,
  strings, numbers, booleans and null. Numbers are integers.
 */
module JsonModel {
  import opened Decimal

  datatype Json =
    | JObj(fields: map<string, Json>)
    | JArr(items: seq<Json>)
    | JStr(str: string)
    | JNum(num: int)
    | JBool(flag: bool)
    | JNull

  /** Python's truth value of a decoded JSON value (`if value:`). */
  predicate Truthy(j: Json) {
    match j
    case JObj(m) => |m| > 0
    case JArr(s) => |s| > 0
    case JStr(s) => |s| > 0
    case JNum(n) => n != 0
    case JBool(b) => b
    case JNull => false
  }

  /** `d.get(key, default)` on a dict. */
  function Get(m: map<string, Json>, key: string, default: Json): Json {
    if key in m then m[key] else default
  }

  /** Values whose `str()` this model renders: everything but lists and dicts. */
  predicate Printable(j: Json) {
    !j.JObj? && !j.JArr?
  }

  /** Python's `str()` of a scalar value, as an f-string inserts it. */
  function Text(j: Json): (s: string)
    requires Printable(j)
    ensures Truthy(j) ==> |s| > 0
  {
    match j
    case JStr(s) => s
    case JNum(n) => DecimalString(n)
    case JBool(b) => if b then "True" else "False"
    case JNull => "None"
  }
}
