/** The shapes every handler shares: the inbound Netlify event, the outbound
    `{statusCode, body}` response, the request sent upstream with `fetch`,
    and what that call delivers back. */
module Http {

  import opened Wrappers
  import opened JsValues

  /** The inbound event: `event.httpMethod` and `event.body` (absent or a string). */
  datatype Event = Event(httpMethod: string, body: Option<string>)

  /** A response body. `Text(s)` is sent as written; `Json(v)` stands for
      `JSON.stringify(v)`, which this model leaves abstract. */
  datatype Body = Text(text: string) | Json(value: JsValue)

  /** What a handler resolves to. */
  datatype Response = Response(statusCode: int, body: Body)

  /** The outcome of `JSON.parse(text)` or `response.json()`: a value, or the
      message of the error it throws. For `JSON.parse` that is a SyntaxError;
      `response.json()` of node-fetch 2 rejects instead with a FetchError whose
      message names the request URL. */
  datatype JsonOutcome = Parsed(value: JsValue) | ParseError(message: string)

  /** A request handed to `fetch`: method, URL, headers in the order written,
      and the value whose `JSON.stringify` is the request body, if any. */
  datatype Outbound = Outbound(
    httpMethod: string,
    url: string,
    headers: seq<(string, string)>,
    payload: Option<JsValue>)

  /** What `await fetch(...)` delivers: a response with its status, the text
      `response.text()` would read and the outcome `response.json()` would
      have; or a rejection (DNS failure, reset connection, ...) with its message. */
  datatype UpstreamOutcome =
    | Responded(status: nat, text: string, json: JsonOutcome)
    | Rejected(message: string)

  /** Where a handler's validation ladder ends: an immediate response, or the
      one request it forwards upstream. */
  datatype Step = Respond(response: Response) | Forward(request: Outbound)

  /** `response.ok`: a status in the range 200-299. */
  predicate IsOk(status: nat) {
    200 <= status <= 299
  }

  const MethodNotAllowed := Response(405, Text("Method Not Allowed"))

  const JsonContentType := ("Content-Type", "application/json")

  /** The `{ error: message }` object every JSON error body carries. */
  function ErrorBody(message: string): JsValue {
    Obj(map["error" := Str(message)])
  }

  function ErrorResponse(status: int, message: string): Response {
    Response(status, Json(ErrorBody(message)))
  }

  /** The catch-all response for an exception with the given message. */
  function ServerError(message: string): Response {
    ErrorResponse(500, "Server Error: " + message)
  }

  /** The object the POST handlers read their fields from: `NoBody` when the
      event body is absent or empty (the fields keep their initial `null`),
      otherwise the parsed value, which is neither `null` nor `undefined`. */
  datatype BodyFields = NoBody | Fields(obj: JsValue)

  /** The first `try` block of the POST handlers: parse the body when it is
      truthy and read properties from the result. `None` means that block
      threw, either because `JSON.parse` failed or because the body parsed to
      `null` and reading a property of it failed. */
  function ReadBody(raw: Option<string>, parse: string -> JsonOutcome): (r: Option<BodyFields>)
    ensures r == Some(NoBody) <==> raw.None? || raw.value == []
    ensures r.None? <==>
      (raw.Some? && raw.value != []
       && (parse(raw.value).ParseError? || Nullish(parse(raw.value).value)))
    ensures r.Some? && r.value.Fields? ==>
      (raw.Some? && parse(raw.value) == Parsed(r.value.obj) && !Nullish(r.value.obj))
  {
    if raw.None? || raw.value == [] then Some(NoBody)
    else
      match parse(raw.value)
      case ParseError(_) => None
      case Parsed(v) => if Nullish(v) then None else Some(Fields(v))
  }

  /** The value a POST handler holds for one body field after the first
      `try` block succeeded. */
  function Field(b: BodyFields, key: string): (v: JsValue)
    ensures b.NoBody? ==> v == Null
    ensures b.Fields? ==> v == Property(b.obj, key)
  {
    match b
    case NoBody => Null
    case Fields(obj) => Property(obj, key)
  }
}
