/**
 * Values produced by Python's `json.loads`, restricted to what the grading
 * service can meet: null, booleans, integers, strings, arrays and objects.
 */
module Json {

  datatype Value =
    | JNull
    | JBool(b: bool)
    | JInt(i: int)
    | JStr(s: string)
    | JArr(items: seq<Value>)
    | JObj(fields: map<string, Value>)

  /**
   * Python truthiness of a decoded value, which decides whether `x or y`
   * keeps `x`: None, False, 0, "", [] and {} are falsy, everything else truthy.
   */
  predicate Truthy(v: Value)
    ensures Truthy(v) <==> v !in {JNull, JBool(false), JInt(0), JStr(""), JArr([]), JObj(map[])}
  {
    match v
    case JNull => false
    case JBool(b) => b
    case JInt(i) => i != 0
    case JStr(s) => s != ""
    case JArr(items) => items != []
    case JObj(fields) => fields != map[]
  }
}
