/** The parts the two generative-text handlers (`cv-assistant` and
    `jd-assistant`) have in common: the `generateContent` URL that carries the
    model name and the API key, the `{contents, systemInstruction}` payload,
    their two shared error messages, and how an upstream outcome becomes the
    handler's response. */
module Gemini {

  import opened Wrappers
  import opened JsValues
  import opened JsStrings
  import opened Http

  // ---------------------------------------------------------------------------
  // URL
  // ---------------------------------------------------------------------------

  const Endpoint := "https://generativelanguage.googleapis.com/v1beta/models/"
  const Action := "generateContent?key="

  /** `.../models/${model}:generateContent?key=${apiKey}`; neither part is escaped. */
  function Url(model: string, apiKey: string): string {
    Endpoint + model + [':'] + Action + apiKey
  }

  /** Splits `s` at its first occurrence of `c`. */
  function SplitAtFirst(s: string, c: char): (r: Option<(string, string)>)
    ensures r.None? <==> c !in s
    ensures r.Some? ==> s == r.value.0 + [c] + r.value.1 && c !in r.value.0
  {
    if s == [] then None
    else if s[0] == c then Some(([], s[1..]))
    else
      match SplitAtFirst(s[1..], c)
      case None => None
      case Some(p) => Some(([s[0]] + p.0, p.1))
  }

  /** Reads the model name and the API key back out of a `generateContent` URL. */
  function ParseUrl(url: string): Option<(string, string)> {
    if |url| >= |Endpoint| && url[..|Endpoint|] == Endpoint then
      match SplitAtFirst(url[|Endpoint|..], ':')
      case None => None
      case Some(p) =>
        if |p.1| >= |Action| && p.1[..|Action|] == Action then Some((p.0, p.1[|Action|..]))
        else None
    else None
  }

  /** Splitting at the first `c` finds the piece that does not contain `c`. */
  lemma {:induction false} SplitAtFirstOf(head: string, c: char, tail: string)
    requires c !in head
    ensures SplitAtFirst(head + [c] + tail, c) == Some((head, tail))
  {
    var s := head + [c] + tail;
    if head == [] {
      assert s[1..] == tail;
    } else {
      assert s[1..] == head[1..] + [c] + tail;
      SplitAtFirstOf(head[1..], c, tail);
      assert [s[0]] + head[1..] == head;
    }
  }

  /** The model name (which has no colon) and the whole API key, whatever
      characters it holds, can both be read back from the URL. */
  lemma UrlRoundTrip(model: string, apiKey: string)
    requires ':' !in model
    ensures ParseUrl(Url(model, apiKey)) == Some((model, apiKey))
  {
    var url := Url(model, apiKey);
    assert url[..|Endpoint|] == Endpoint;
    assert url[|Endpoint|..] == model + [':'] + (Action + apiKey);
    SplitAtFirstOf(model, ':', Action + apiKey);
    assert (Action + apiKey)[..|Action|] == Action;
    assert (Action + apiKey)[|Action|..] == apiKey;
  }

  // ---------------------------------------------------------------------------
  // Payload
  // ---------------------------------------------------------------------------

  /** `{ parts: [{ text }] }` */
  function TextParts(text: string): JsValue {
    Obj(map["parts" := Arr([Obj(map["text" := Str(text)])])])
  }

  /** The text of a value shaped exactly `{ parts: [{ text }] }`: one key at
      each level and a single part. */
  function TextOfParts(v: JsValue): Option<string> {
    if v.Obj? && v.fields.Keys == {"parts"} && v.fields["parts"].Arr?
       && |v.fields["parts"].items| == 1 && v.fields["parts"].items[0].Obj?
       && v.fields["parts"].items[0].fields.Keys == {"text"}
       && v.fields["parts"].items[0].fields["text"].Str?
    then Some(v.fields["parts"].items[0].fields["text"].s)
    else None
  }

  /** `{ contents: [{ parts: [{ text: userText }] }], systemInstruction: { parts: [{ text: systemPrompt }] } }` */
  function Payload(userText: string, systemPrompt: string): JsValue {
    Obj(map["contents" := Arr([TextParts(userText)]),
            "systemInstruction" := TextParts(systemPrompt)])
  }

  /** The user message of a payload: the text of its single `contents` entry. */
  function UserTextOf(p: JsValue): Option<string> {
    if p.Obj? && "contents" in p.fields && p.fields["contents"].Arr?
       && |p.fields["contents"].items| == 1
    then TextOfParts(p.fields["contents"].items[0])
    else None
  }

  /** The system prompt of a payload. */
  function SystemTextOf(p: JsValue): Option<string> {
    if p.Obj? && "systemInstruction" in p.fields then TextOfParts(p.fields["systemInstruction"])
    else None
  }

  /** The payload has exactly the two keys `contents` and `systemInstruction`
      (no `model` key), and both texts can be read back unchanged. */
  lemma PayloadShape(userText: string, systemPrompt: string)
    ensures var p := Payload(userText, systemPrompt);
      && p.Obj? && p.fields.Keys == {"contents", "systemInstruction"}
      && "model" !in p.fields
      && UserTextOf(p) == Some(userText)
      && SystemTextOf(p) == Some(systemPrompt)
  {
  }

  /** The `fetch` call both handlers make. The model name and the key travel
      only in the URL; the body is the payload; the one header declares JSON. */
  function Request(model: string, apiKey: string, userText: string, systemPrompt: string): (r: Outbound)
    ensures r.httpMethod == "POST" && r.headers == [JsonContentType]
    ensures ':' !in model ==> ParseUrl(r.url) == Some((model, apiKey))
    ensures r.payload.Some? && r.payload.value.Obj?
    ensures r.payload.value.fields.Keys == {"contents", "systemInstruction"}
    ensures UserTextOf(r.payload.value) == Some(userText)
    ensures SystemTextOf(r.payload.value) == Some(systemPrompt)
  {
    PayloadShape(userText, systemPrompt);
    assert ':' !in model ==> ParseUrl(Url(model, apiKey)) == Some((model, apiKey)) by {
      if ':' !in model {
        UrlRoundTrip(model, apiKey);
      }
    }
    Outbound("POST", Url(model, apiKey), [JsonContentType], Some(Payload(userText, systemPrompt)))
  }

  /** The model name and the API key do not reach the payload: requests that
      differ only in them carry the same body. */
  lemma PayloadOmitsModelAndKey(model1: string, apiKey1: string, model2: string, apiKey2: string,
                                userText: string, systemPrompt: string)
    ensures Request(model1, apiKey1, userText, systemPrompt).payload
         == Request(model2, apiKey2, userText, systemPrompt).payload
  {
  }

  // ---------------------------------------------------------------------------
  // Shared messages and the relay of the upstream outcome
  // ---------------------------------------------------------------------------

  const InvalidJsonMessage := "Invalid JSON input. Please ensure data is sent."
  const KeyMissingMessage := "API key is not configured. Check Netlify Environment Variables."

  const FailurePrefix := "Gemini API call failed with status "

  /** The generic message that replaces an upstream error body. */
  function FailureMessage(status: nat): string {
    FailurePrefix + Decimal(status) + "."
  }

  /** Reads the status back out of a failure message. */
  function StatusOfFailureMessage(m: string): Option<nat> {
    if |m| > |FailurePrefix| && m[..|FailurePrefix|] == FailurePrefix && m[|m| - 1] == '.'
    then ParseDecimal(m[|FailurePrefix|..|m| - 1])
    else None
  }

  /** The failure message names the upstream status exactly. */
  lemma FailureMessageRoundTrip(status: nat)
    ensures StatusOfFailureMessage(FailureMessage(status)) == Some(status)
  {
    var m := FailureMessage(status);
    assert m[..|FailurePrefix|] == FailurePrefix;
    assert m[|FailurePrefix|..|m| - 1] == Decimal(status);
    DecimalRoundTrip(status);
  }

  /** What the handlers return once `fetch` has settled. A non-OK status is
      relayed with the generic failure message; an OK response is answered
      with 200 and the upstream JSON unchanged; a rejected `fetch` or an
      unreadable JSON body becomes a 500. */
  function Relay(o: UpstreamOutcome): (r: Response)
    ensures r.body.Json?
    ensures r.statusCode == 200 <==> o.Responded? && IsOk(o.status) && o.json.Parsed?
    ensures r.statusCode == 200 ==> r.body == Json(o.json.value)
    ensures o.Responded? && !IsOk(o.status) ==> r == ErrorResponse(o.status, FailureMessage(o.status))
    ensures o.Responded? && IsOk(o.status) && o.json.ParseError? ==> r == ServerError(o.json.message)
    ensures o.Rejected? ==> r == ServerError(o.message)
  {
    match o
    case Rejected(message) => ServerError(message)
    case Responded(status, _, json) =>
      if !IsOk(status) then ErrorResponse(status, FailureMessage(status))
      else
        match json
        case ParseError(message) => ServerError(message)
        case Parsed(data) => Response(200, Json(data))
  }

  /** The upstream error text never reaches the caller: two responses that
      differ only in their text are relayed identically. */
  lemma RelayIgnoresErrorText(status: nat, text1: string, text2: string, json: JsonOutcome)
    ensures Relay(Responded(status, text1, json)) == Relay(Responded(status, text2, json))
  {
  }
}
