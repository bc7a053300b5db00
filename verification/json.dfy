/** Decoded JSON values as the integration receives them from the Blocky API.
    JSON numbers are modelled as integers. */
module Json {

  datatype JsonValue =
    | JNull
    | JBool(b: bool)
    | JInt(i: int)
    | JStr(s: string)
    | JList(items: seq<JsonValue>)
    | JObject(fields: map<string, JsonValue>)

  /** A decoded JSON object, i.e. a Python `dict` with string keys. */
  type Object = map<string, JsonValue>

  /** Python truthiness of the decoded value. */
  predicate Truthy(j: JsonValue) {
    match j
    case JNull => false
    case JBool(b) => b
    case JInt(i) => i != 0
    case JStr(s) => s != ""
    case JList(items) => items != []
    case JObject(fields) => fields != map[]
  }

  /** `obj.get(key)`: the value under `key`, or `None` (JSON null) when absent. */
  function GetOrNull(obj: Object, key: string): (r: JsonValue)
    ensures key in obj ==> r == obj[key]
    ensures key !in obj ==> r == JNull
  {
    if key in obj then obj[key] else JNull
  }
}
