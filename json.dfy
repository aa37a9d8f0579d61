/** Decoded JSON values, as `json.load` hands them to Python code. */
module Json {

  /** A JSON document after decoding. Integers and floats are both numbers (reals);
      an object is a dictionary from keys to values, its key order not kept. */
  datatype Value =
    | JNull
    | JBool(b: bool)
    | JNumber(n: real)
    | JString(s: string)
    | JArray(items: seq<Value>)
    | JObject(fields: map<string, Value>)

  /** Python truthiness: `not data` holds exactly for these decoded values. */
  predicate Falsy(v: Value) {
    match v
    case JNull => true
    case JBool(b) => !b
    case JNumber(n) => n == 0.0
    case JString(s) => s == ""
    case JArray(items) => items == []
    case JObject(fields) => fields == map[]
  }
}
