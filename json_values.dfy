/** Values decoded from JSON, with the two Python judgements the core applies to them. */
module JsonValues {

  datatype Json =
    | JNull
    | JBool(b: bool)
    | JInt(i: int)
    | JReal(r: real)
    | JStr(s: string)
    | JList(items: seq<Json>)
    | JObject(fields: map<string, Json>)

  /** `bool(v)`: Python truthiness of a decoded value (`not v` is its negation). */
  predicate Truthy(v: Json) {
    match v
    case JNull => false
    case JBool(b) => b
    case JInt(i) => i != 0
    case JReal(r) => r != 0.0
    case JStr(s) => |s| > 0
    case JList(xs) => |xs| > 0
    case JObject(m) => |m| > 0
  }

  /** The Python types a configuration schema names. */
  datatype PyType = StrType | IntType | ListType

  /** `isinstance(v, t)`; a Python `bool` is an instance of `int`. */
  predicate IsInstance(v: Json, t: PyType) {
    match t
    case StrType => v.JStr?
    case IntType => v.JInt? || v.JBool?
    case ListType => v.JList?
  }
}
