/** Reading a request's JSON body: the body must be a JSON object. */
module Request {
  import opened Values

  const InvalidJsonBody := "Invalid JSON body"

  /** `{ok: true, value}` or `{ok: false, error}`: a constructor each, so never both. */
  datatype ParseBodyResult = Parsed(value: map<string, Json>) | BodyError(error: string)

  /** What reading the body produced: the parsed JSON value, or a throw (malformed
      JSON, an unreadable stream). */
  datatype BodyRead = BodyJson(value: Json) | BodyThrows

  /** validateJsonBody: a plain object passes through as it is; null, arrays and
      every primitive are refused. */
  function ValidateJsonBody(body: Json): (r: ParseBodyResult)
    ensures r.Parsed? <==> body.JObject?
    ensures r.Parsed? ==> JObject(r.value) == body
    ensures r.BodyError? ==> r.error == InvalidJsonBody
  {
    match body
    case JObject(fields) => Parsed(fields)
    case _ => BodyError(InvalidJsonBody)
  }

  /** parseJsonBody: a body that cannot be read gives the same error a non-object
      body gives; otherwise it is validateJsonBody of the parsed value. */
  function ParseJsonBody(read: BodyRead): (r: ParseBodyResult)
    ensures r.Parsed? <==> read.BodyJson? && read.value.JObject?
    ensures r.Parsed? ==> read == BodyJson(JObject(r.value))
    ensures r.BodyError? ==> r.error == InvalidJsonBody
  {
    match read
    case BodyThrows => BodyError(InvalidJsonBody)
    case BodyJson(v) => ValidateJsonBody(v)
  }

  /** Refused bodies: a string, a number, null and an array. */
  lemma NonObjectsRefused(s: string, n: real, items: seq<Json>)
    ensures ValidateJsonBody(JString(s)) == BodyError(InvalidJsonBody)
    ensures ValidateJsonBody(JNumber(n)) == BodyError(InvalidJsonBody)
    ensures ValidateJsonBody(JNull) == BodyError(InvalidJsonBody)
    ensures ValidateJsonBody(JArray(items)) == BodyError(InvalidJsonBody)
    ensures ParseJsonBody(BodyJson(JArray(items))) == BodyError(InvalidJsonBody)
  {
  }

  /** Accepted bodies: the empty object, and an object holding nested objects,
      arrays and nulls, each returned unchanged. */
  lemma ObjectsAccepted()
    ensures ValidateJsonBody(JObject(map[])) == Parsed(map[])
    ensures var nested := map["tags" := JArray([JString("a"), JString("b")]),
                              "meta" := JObject(map["count" := JNull])];
            ParseJsonBody(BodyJson(JObject(nested))) == Parsed(nested)
  {
  }
}
