/** The `cv-assistant` handler: a POST carrying `{ prompt }` (the text of a
    CV) is validated and forwarded to the generative-language API together
    with a fixed reviewer persona. The request is checked in a fixed order:
    method, JSON body, API key, prompt length; then the single upstream call
    is made and its outcome relayed. */
module CvAssistant {

  import opened Wrappers
  import opened JsValues
  import opened JsStrings
  import opened Http
  import Gemini

  const Model := "gemini-2.5-flash-preview-05-20"

  /** The least UTF-16 length a trimmed prompt may have. */
  const MinPromptLength := 50

  const SystemPrompt := "You are an expert legal recruitment consultant for 'Stratford Gray'. Your tone is professional, encouraging, and helpful. Analyze the following CV text and provide feedback in three distinct sections. Use markdown for formatting. 1. **Key Strengths Summary:** Briefly summarize the candidate's strongest qualifications. 2. **Actionable Suggestions:** Provide 3-4 specific, bulleted tips for improving the CV for the legal sector. 3. **Cover Letter Opener:** Write one compelling opening sentence for a cover letter based on their experience."

  const TextPrefix := "Here is the CV text:\n\n"

  const ShortPromptMessage := "CV prompt content is missing or too short. Minimum 50 characters required."

  /** The user message: the fixed lead-in followed by the prompt exactly as
      received, untrimmed. */
  function UserText(prompt: string): (t: string)
    ensures |t| == |TextPrefix| + |prompt|
    ensures t[..|TextPrefix|] == TextPrefix && t[|TextPrefix|..] == prompt
  {
    TextPrefix + prompt
  }

  /** The upstream request for an accepted prompt: the model and key appear
      in the URL only, the payload carries the CV text and the persona. */
  function Request(apiKey: string, prompt: string): (r: Outbound)
    ensures r.httpMethod == "POST" && r.headers == [JsonContentType]
    ensures Gemini.ParseUrl(r.url) == Some((Model, apiKey))
    ensures r.payload.Some? && r.payload.value.Obj?
    ensures r.payload.value.fields.Keys == {"contents", "systemInstruction"}
    ensures Gemini.UserTextOf(r.payload.value) == Some(UserText(prompt))
    ensures Gemini.SystemTextOf(r.payload.value) == Some(SystemPrompt)
  {
    ModelHasNoColon();
    Gemini.Request(Model, apiKey, UserText(prompt), SystemPrompt)
  }

  lemma ModelHasNoColon()
    ensures ':' !in Model
  {
  }

  /** The value the handler holds for `prompt` once the body has been read. */
  function Prompt(b: BodyFields): JsValue {
    Field(b, "prompt")
  }

  /** The prompt passes validation: a string whose trimmed UTF-16 length is
      at least the minimum. */
  predicate PromptValid(p: JsValue) {
    p.Str? && Utf16Length(Trim(p.s)) >= MinPromptLength
  }

  /** The one condition under which the handler calls upstream: a POST whose
      body can be read, a configured API key, and a valid prompt. */
  predicate Accepted(event: Event, apiKey: Option<string>, parse: string -> JsonOutcome) {
    && event.httpMethod == "POST"
    && ReadBody(event.body, parse).Some?
    && EnvSet(apiKey)
    && PromptValid(Prompt(ReadBody(event.body, parse).value))
  }

  /** The prompt test: `None` when the prompt passes, otherwise the response
      it fails with. */
  function PromptCheck(prompt: JsValue): (r: Option<Response>)
    ensures r.Some? ==> r.value.body.Json?
    ensures r.None? <==> PromptValid(prompt)
    // a missing, empty or non-string falsy prompt is refused as too short
    ensures !Truthy(prompt) ==> r == Some(ErrorResponse(400, ShortPromptMessage))
    // a truthy prompt that is not a string makes `prompt.trim()` throw
    ensures Truthy(prompt) && !prompt.Str? ==> r == Some(ServerError(NotAFunction("prompt.trim")))
    // a string with fewer than 50 UTF-16 units after trimming is refused
    ensures prompt.Str? && !PromptValid(prompt) ==> r == Some(ErrorResponse(400, ShortPromptMessage))
  {
    if !Truthy(prompt) then Some(ErrorResponse(400, ShortPromptMessage))
    else if !prompt.Str? then Some(ServerError(NotAFunction("prompt.trim")))
    else if Utf16Length(Trim(prompt.s)) < MinPromptLength then Some(ErrorResponse(400, ShortPromptMessage))
    else None
  }

  /** The validation ladder of the handler, up to the `fetch` call. */
  function Plan(event: Event, apiKey: Option<string>, parse: string -> JsonOutcome): (r: Step)
    // any other method is refused before the body is looked at
    ensures event.httpMethod != "POST" ==> r == Respond(MethodNotAllowed)
    // a present body that does not parse to an object is refused next
    ensures event.httpMethod == "POST" && ReadBody(event.body, parse).None? ==>
      r == Respond(ErrorResponse(400, Gemini.InvalidJsonMessage))
    // the API key is consulted before the prompt, whatever the prompt is
    ensures event.httpMethod == "POST" && ReadBody(event.body, parse).Some? && !EnvSet(apiKey) ==>
      r == Respond(ErrorResponse(400, Gemini.KeyMissingMessage))
    // an absent or empty body is not a JSON error: it fails as a missing prompt
    ensures event.httpMethod == "POST" && (event.body.None? || event.body.value == []) && EnvSet(apiKey) ==>
      r == Respond(ErrorResponse(400, ShortPromptMessage))
    // then the prompt test decides
    ensures event.httpMethod == "POST" && ReadBody(event.body, parse).Some? && EnvSet(apiKey)
            && PromptCheck(Prompt(ReadBody(event.body, parse).value)).Some? ==>
      r == Respond(PromptCheck(Prompt(ReadBody(event.body, parse).value)).value)
    // exactly the accepted requests are forwarded, with the prompt untrimmed
    ensures r.Forward? <==> Accepted(event, apiKey, parse)
    ensures r.Forward? ==>
      r.request == Request(apiKey.value, Prompt(ReadBody(event.body, parse).value).s)
  {
    if event.httpMethod != "POST" then Respond(MethodNotAllowed)
    else
      match ReadBody(event.body, parse)
      case None => Respond(ErrorResponse(400, Gemini.InvalidJsonMessage))
      case Some(fields) =>
        if !EnvSet(apiKey) then Respond(ErrorResponse(400, Gemini.KeyMissingMessage))
        else
          match PromptCheck(Prompt(fields))
          case Some(response) => Respond(response)
          case None => Forward(Request(apiKey.value, Prompt(fields).s))
  }

  /** `exports.handler`: the ladder, then the relay of whatever the single
      upstream call delivers. `upstream` stands for `fetch`. */
  function Handle(event: Event, apiKey: Option<string>, parse: string -> JsonOutcome,
                  upstream: Outbound -> UpstreamOutcome): (r: Response)
    ensures Accepted(event, apiKey, parse) ==>
      r == Gemini.Relay(upstream(Request(apiKey.value, Prompt(ReadBody(event.body, parse).value).s)))
    ensures !Accepted(event, apiKey, parse) ==> r.statusCode in {400, 405, 500}
  {
    match Plan(event, apiKey, parse)
    case Respond(response) => response
    case Forward(request) => Gemini.Relay(upstream(request))
  }

  /** A request that is not accepted never reaches upstream: its response is
      the same whatever `fetch` would have done. */
  lemma NoUpstreamCallUnlessAccepted(event: Event, apiKey: Option<string>, parse: string -> JsonOutcome,
                                     upstream1: Outbound -> UpstreamOutcome,
                                     upstream2: Outbound -> UpstreamOutcome)
    requires !Accepted(event, apiKey, parse)
    ensures Handle(event, apiKey, parse, upstream1) == Handle(event, apiKey, parse, upstream2)
  {
  }

  /** The ladder's own answers never depend on the value of the API key, only
      on whether one is configured: two keys give the same immediate response. */
  lemma LadderIgnoresKeyValue(event: Event, key1: string, key2: string, parse: string -> JsonOutcome)
    requires key1 != [] && key2 != []
    requires Plan(event, Some(key1), parse).Respond?
    ensures Plan(event, Some(key1), parse) == Plan(event, Some(key2), parse)
  {
  }

  /** A refused method gets 405 whatever the body, configuration, parser or
      upstream; no other response has a plain-text body. */
  lemma MethodNotAllowedIff(event: Event, apiKey: Option<string>, parse: string -> JsonOutcome,
                            upstream: Outbound -> UpstreamOutcome)
    ensures Handle(event, apiKey, parse, upstream) == MethodNotAllowed <==> event.httpMethod != "POST"
  {
  }

  /** The length rule in characters: 50 characters after trimming always
      pass, fewer than 25 always fail, because every character takes one or
      two UTF-16 units. */
  lemma PromptLengthInCharacters(s: string)
    ensures |Trim(s)| >= MinPromptLength ==> PromptValid(Str(s))
    ensures 2 * |Trim(s)| < MinPromptLength ==> !PromptValid(Str(s))
  {
  }
}
