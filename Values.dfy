/** Values shared by the backend and the frontend: an optional value (JavaScript's
    `undefined`) and the JSON values a request body, a query or a path carries. */
module Values {

  /** `None` stands for JavaScript's `undefined`. */
  datatype Option<T> = None | Some(value: T) {
    /** The `??` operator: the value, or `default` when undefined. */
    function GetOr(default: T): T {
      match this
      case Some(v) => v
      case None => default
    }
  }

  /** A parsed JSON value. Numbers are finite reals (JSON has no NaN or Infinity);
      an object maps each of its keys to its value. */
  datatype Json =
    | JNull
    | JBool(b: bool)
    | JNumber(n: real)
    | JString(s: string)
    | JArray(items: seq<Json>)
    | JObject(fields: map<string, Json>)

  /** Reading a property of an object: `undefined` when the key is absent. */
  function Lookup(fields: map<string, Json>, key: string): (r: Option<Json>)
    ensures r.Some? <==> key in fields
    ensures r.Some? ==> r.value == fields[key]
  {
    if key in fields then Some(fields[key]) else None
  }

  /** The name zod gives the type of a value in its "Expected …, received …" messages. */
  function TypeName(v: Json): string {
    match v
    case JNull => "null"
    case JBool(_) => "boolean"
    case JNumber(_) => "number"
    case JString(_) => "string"
    case JArray(_) => "array"
    case JObject(_) => "object"
  }

  /** JavaScript truthiness of a JSON value. */
  predicate Truthy(v: Json) {
    match v
    case JNull => false
    case JBool(b) => b
    case JNumber(n) => n != 0.0
    case JString(s) => s != ""
    case JArray(_) => true
    case JObject(_) => true
  }
}
