/** The `jd-assistant` handler: a POST carrying `{ title, details }` for a
    vacancy is validated and forwarded to the generative-language API with a
    fixed copywriter persona. The checks run in order: method, JSON body, API
    key, then title and details (each must be a string with a non-whitespace
    character); then the single upstream call is made and its outcome relayed. */
module JdAssistant {

  import opened Wrappers
  import opened JsValues
  import opened JsStrings
  import opened Http
  import Gemini

  const Model := "gemini-2.5-flash"

  const SystemPrompt := "You are an expert legal recruitment copywriter for 'Stratford Gray'. Your tone is professional, engaging, and authoritative. Create a full job description based on the provided title and key responsibilities. The description must be well-structured with the following markdown sections: **The Role**, **Key Responsibilities**, **The Ideal Candidate**, and **What We Offer**. Ensure the language is inclusive and compelling to attract top-tier legal professionals."

  const TitleLabel := "Job Title: "
  const DetailsLabel := "\n\nKey Details: "

  const MissingFieldsMessage := "Job title or key details are missing."

  /** The user message: both labels with the title and the details between
      and after them, exactly as received (untrimmed). */
  function UserText(title: string, details: string): (t: string)
    ensures |t| == |TitleLabel| + |title| + |DetailsLabel| + |details|
    ensures t[..|TitleLabel|] == TitleLabel
    ensures t[|TitleLabel|..|TitleLabel| + |title|] == title
    ensures t[|TitleLabel| + |title|..|t| - |details|] == DetailsLabel
    ensures t[|t| - |details|..] == details
  {
    TitleLabel + title + DetailsLabel + details
  }

  lemma ModelHasNoColon()
    ensures ':' !in Model
  {
  }

  /** The upstream request for an accepted title and details: the constant
      model and the key appear in the URL only. */
  function Request(apiKey: string, title: string, details: string): (r: Outbound)
    ensures r.httpMethod == "POST" && r.headers == [JsonContentType]
    ensures Gemini.ParseUrl(r.url) == Some((Model, apiKey))
    ensures r.payload.Some? && r.payload.value.Obj?
    ensures r.payload.value.fields.Keys == {"contents", "systemInstruction"}
    ensures Gemini.UserTextOf(r.payload.value) == Some(UserText(title, details))
    ensures Gemini.SystemTextOf(r.payload.value) == Some(SystemPrompt)
  {
    ModelHasNoColon();
    Gemini.Request(Model, apiKey, UserText(title, details), SystemPrompt)
  }

  function Title(b: BodyFields): JsValue {
    Field(b, "title")
  }

  function Details(b: BodyFields): JsValue {
    Field(b, "details")
  }

  /** A field passes validation: a string that is not all whitespace. */
  predicate Filled(v: JsValue) {
    v.Str? && !AllWhitespace(v.s)
  }

  /** The one condition under which the handler calls upstream. */
  predicate Accepted(event: Event, apiKey: Option<string>, parse: string -> JsonOutcome) {
    && event.httpMethod == "POST"
    && ReadBody(event.body, parse).Some?
    && EnvSet(apiKey)
    && Filled(Title(ReadBody(event.body, parse).value))
    && Filled(Details(ReadBody(event.body, parse).value))
  }

  /** The title-and-details test. It short-circuits left to right, so the
      title is examined completely before the details are looked at; `None`
      means both passed, otherwise the response it fails with. */
  function FieldCheck(title: JsValue, details: JsValue): (r: Option<Response>)
    ensures r.Some? ==> r.value.body.Json?
    ensures r.None? <==> Filled(title) && Filled(details)
    // a missing, empty or whitespace-only title is refused
    ensures !Truthy(title) || (title.Str? && AllWhitespace(title.s)) ==>
      r == Some(ErrorResponse(400, MissingFieldsMessage))
    // a truthy title that is not a string makes `title.trim()` throw
    ensures Truthy(title) && !title.Str? ==> r == Some(ServerError(NotAFunction("title.trim")))
    // with a good title, missing, empty or whitespace-only details are refused
    ensures Filled(title) && (!Truthy(details) || (details.Str? && AllWhitespace(details.s))) ==>
      r == Some(ErrorResponse(400, MissingFieldsMessage))
    // with a good title, truthy details that are not a string make `details.trim()` throw
    ensures Filled(title) && Truthy(details) && !details.Str? ==>
      r == Some(ServerError(NotAFunction("details.trim")))
  {
    if !Truthy(title) then Some(ErrorResponse(400, MissingFieldsMessage))
    else if !title.Str? then Some(ServerError(NotAFunction("title.trim")))
    else if Utf16Length(Trim(title.s)) == 0 then Some(ErrorResponse(400, MissingFieldsMessage))
    else if !Truthy(details) then Some(ErrorResponse(400, MissingFieldsMessage))
    else if !details.Str? then Some(ServerError(NotAFunction("details.trim")))
    else if Utf16Length(Trim(details.s)) == 0 then Some(ErrorResponse(400, MissingFieldsMessage))
    else None
  }

  /** The validation ladder of the handler, up to the `fetch` call. */
  function Plan(event: Event, apiKey: Option<string>, parse: string -> JsonOutcome): (r: Step)
    // any other method is refused before the body is looked at
    ensures event.httpMethod != "POST" ==> r == Respond(MethodNotAllowed)
    // a present body that does not parse to an object is refused next
    ensures event.httpMethod == "POST" && ReadBody(event.body, parse).None? ==>
      r == Respond(ErrorResponse(400, Gemini.InvalidJsonMessage))
    // the API key is consulted before the fields, whatever they hold
    ensures event.httpMethod == "POST" && ReadBody(event.body, parse).Some? && !EnvSet(apiKey) ==>
      r == Respond(ErrorResponse(400, Gemini.KeyMissingMessage))
    // an absent or empty body fails the field test
    ensures event.httpMethod == "POST" && (event.body.None? || event.body.value == []) && EnvSet(apiKey) ==>
      r == Respond(ErrorResponse(400, MissingFieldsMessage))
    // then the field test decides
    ensures event.httpMethod == "POST" && ReadBody(event.body, parse).Some? && EnvSet(apiKey)
            && FieldCheck(Title(ReadBody(event.body, parse).value),
                          Details(ReadBody(event.body, parse).value)).Some? ==>
      r == Respond(FieldCheck(Title(ReadBody(event.body, parse).value),
                              Details(ReadBody(event.body, parse).value)).value)
    // exactly the accepted requests are forwarded, with both values untrimmed
    ensures r.Forward? <==> Accepted(event, apiKey, parse)
    ensures r.Forward? ==>
      r.request == Request(apiKey.value, Title(ReadBody(event.body, parse).value).s,
                           Details(ReadBody(event.body, parse).value).s)
  {
    if event.httpMethod != "POST" then Respond(MethodNotAllowed)
    else
      match ReadBody(event.body, parse)
      case None => Respond(ErrorResponse(400, Gemini.InvalidJsonMessage))
      case Some(fields) =>
        if !EnvSet(apiKey) then Respond(ErrorResponse(400, Gemini.KeyMissingMessage))
        else
          match FieldCheck(Title(fields), Details(fields))
          case Some(response) => Respond(response)
          case None => Forward(Request(apiKey.value, Title(fields).s, Details(fields).s))
  }

  /** `exports.handler`: the ladder, then the relay of whatever the single
      upstream call delivers. `upstream` stands for `fetch`. */
  function Handle(event: Event, apiKey: Option<string>, parse: string -> JsonOutcome,
                  upstream: Outbound -> UpstreamOutcome): (r: Response)
    ensures Accepted(event, apiKey, parse) ==>
      r == Gemini.Relay(upstream(Request(apiKey.value, Title(ReadBody(event.body, parse).value).s,
                                         Details(ReadBody(event.body, parse).value).s)))
    ensures !Accepted(event, apiKey, parse) ==> r.statusCode in {400, 405, 500}
  {
    match Plan(event, apiKey, parse)
    case Respond(response) => response
    case Forward(request) => Gemini.Relay(upstream(request))
  }

  /** A request that is not accepted never reaches upstream: its response is
      the same whatever `fetch` would have done. */
  lemma NoUpstreamCallUnlessAccepted(event: Event, apiKey: Option<string>, parse: string -> JsonOutcome,
                                     upstream1: Outbound -> UpstreamOutcome,
                                     upstream2: Outbound -> UpstreamOutcome)
    requires !Accepted(event, apiKey, parse)
    ensures Handle(event, apiKey, parse, upstream1) == Handle(event, apiKey, parse, upstream2)
  {
  }

  /** The ladder's own answers never depend on the value of the API key, only
      on whether one is configured: two keys give the same immediate response. */
  lemma LadderIgnoresKeyValue(event: Event, key1: string, key2: string, parse: string -> JsonOutcome)
    requires key1 != [] && key2 != []
    requires Plan(event, Some(key1), parse).Respond?
    ensures Plan(event, Some(key1), parse) == Plan(event, Some(key2), parse)
  {
  }

  /** A refused method gets 405 whatever the body, configuration, parser or
      upstream; no other response has a plain-text body. */
  lemma MethodNotAllowedIff(event: Event, apiKey: Option<string>, parse: string -> JsonOutcome,
                            upstream: Outbound -> UpstreamOutcome)
    ensures Handle(event, apiKey, parse, upstream) == MethodNotAllowed <==> event.httpMethod != "POST"
  {
  }
}
