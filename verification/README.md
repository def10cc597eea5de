# Stratford Gray serverless handlers, modelled in Dafny

The website's back end is three Netlify functions. Each one is a small proxy
that reads a secret credential from its environment and adds it to the
request it sends upstream:

- `cv-assistant` takes a POST with `{ prompt }` (the text of a CV). It sends
  the text to the Gemini `generateContent` API with a fixed reviewer persona.
- `jd-assistant` takes a POST with `{ title, details }` for a vacancy. It
  sends them to the same API with a fixed copywriter persona.
- `fetch-jobs` takes a GET. It reads the `Jobs` table of an Airtable base and
  returns each record projected onto six display fields.

The model is functional. An inbound event, the environment variables, the
JSON parser and the `fetch` call are all inputs: the parser is a function
`string -> JsonOutcome` and `fetch` is a function `Outbound -> UpstreamOutcome`.
Each handler is then a pure function from its inputs to a `{statusCode, body}`.
It is split into `Plan` and `Handle`. `Plan` is the validation ladder. It
either answers at once or names the single request to send. `Handle` then
relays whatever that request returns. "No upstream call is made" is stated as
"the response is the same whatever `fetch` does".

Files and modules:

| file | module | contents |
|---|---|---|
| wrappers.dfy | `Wrappers` | `Option`, and `Result` whose failure is a thrown error's message |
| js_values.dfy | `JsValues` | JSON values plus `undefined`, truthiness, property reads, `||`, engine error messages |
| js_strings.dfy | `JsStrings` | `trim`, UTF-16 `length`, decimal rendering of a status, `encodeURIComponent` |
| http.dfy | `Http` | event, response, outbound request, upstream outcome, body reading of the POST handlers |
| gemini.dfy | `Gemini` | URL, payload, messages and upstream relay shared by the two generative-text handlers |
| cv_assistant.dfy | `CvAssistant` | the CV handler |
| jd_assistant.dfy | `JdAssistant` | the job-description handler |
| fetch_jobs.dfy | `FetchJobs` | the job-listing handler and its record projection |

## Behaviour worth noting

- A missing `GEMINI_API_KEY` is answered with 400.
- An absent or empty body is not an error of its own. The fields keep their
  initial `null`, and the request fails the field test. That test comes after
  the API-key test.
- The listing filter never drops a record. Every projected title and location
  is either a truthy upstream value or a non-empty default, so
  `job.title && job.location` always holds.
- The responses carry no headers: none of the three handlers sets any.
- The answers of the validation ladders depend on whether each credential is
  configured, never on its value.

## Model

| member | source | states |
|---|---|---|
| `JsValues.FalsyValues` | netlify/functions/cv-assistant.js:30 | `Truthy` is ECMAScript's ToBoolean on this fragment of values: it is false for exactly `undefined`, `null`, `false`, `0` and `""` |
| `JsValues.Property` | netlify/functions/fetch-jobs.js:45-52 | reading a property of an object gives its value when the key is present and `undefined` when it is absent; a property of any non-object reads as `undefined` |
| `JsValues.Or` | netlify/functions/fetch-jobs.js:48-52 | `v \|\| d` is `v` when truthy and `d` otherwise; the result is truthy whenever the default is |
| `JsValues.EnvUnsetValues` | netlify/functions/fetch-jobs.js:18 | `EnvSet` is the negation of `!value` on an environment variable: it fails exactly for an unset variable and for the empty string |
| `JsStrings.WhitespaceIsEcmaSet` | netlify/functions/jd-assistant.js:32 | `IsWhitespace`, the set `trim` removes, holds for exactly the 25 characters of ECMAScript's WhiteSpace and LineTerminator productions |
| `JsStrings.TrimStart` | netlify/functions/cv-assistant.js:30 | the result is the suffix of the input that starts at its first non-whitespace character; everything removed is whitespace |
| `JsStrings.TrimEnd` | netlify/functions/cv-assistant.js:30 | the result is the prefix of the input that ends at its last non-whitespace character; everything removed is whitespace |
| `JsStrings.Trim` | netlify/functions/jd-assistant.js:32 | `trim()` is empty exactly when the string is all JavaScript whitespace; otherwise it starts and ends with non-whitespace |
| `JsStrings.TrimIsSlice` | netlify/functions/cv-assistant.js:30 | `trim()` is the contiguous slice of the input that starts where the leading whitespace ends, and every character before and after that slice is whitespace |
| `JsStrings.TrimIdempotent` | netlify/functions/cv-assistant.js:30 | trimming twice is the same as trimming once |
| `JsStrings.Utf16Length` | netlify/functions/cv-assistant.js:30 | `length` counts UTF-16 units: between one and two per character, and one per character exactly when all lie in the Basic Multilingual Plane |
| `JsStrings.Decimal` | netlify/functions/cv-assistant.js:55 | the status renders as a non-empty run of decimal digits with no leading zero |
| `JsStrings.DecimalRoundTrip` | netlify/functions/cv-assistant.js:55 | reading the rendered digits back gives the status itself |
| `JsStrings.DecimalInjective` | netlify/functions/jd-assistant.js:56 | distinct statuses render as distinct strings |
| `JsStrings.EncodeUriComponent` | netlify/functions/fetch-jobs.js:24 | the encoding holds only unreserved characters and `%`; it is as long as the input exactly when nothing needed escaping |
| `JsStrings.EncodeIdentityIff` | netlify/functions/fetch-jobs.js:24 | `encodeURIComponent(s) == s` exactly when every character of `s` is unreserved |
| `Http.ReadBody` | netlify/functions/cv-assistant.js:10-20 | an absent or empty body is not parsed; a present body whose parse fails or yields `null` makes the first try block throw; otherwise its fields are read from the parsed object |
| `Http.Field` | netlify/functions/jd-assistant.js:10-18 | a field of the request body is `null` when there is no body, and otherwise the property of that name of the parsed body |
| `Gemini.SplitAtFirst` | netlify/functions/jd-assistant.js:44 | the split is at the first colon: the two pieces rebuild the input and the first holds no colon |
| `Gemini.UrlRoundTrip` | netlify/functions/jd-assistant.js:44 | the model name and the whole API key can be read back from the `generateContent` URL |
| `Gemini.PayloadShape` | netlify/functions/cv-assistant.js:36-40 | the payload has exactly the keys `contents` and `systemInstruction`, no `model`, and both texts read back unchanged |
| `Gemini.Request` | netlify/functions/jd-assistant.js:38-50 | a POST with exactly one header, the JSON content type; the model and key can be read back from the URL; the payload has exactly the keys `contents` and `systemInstruction`, each holding one `parts` list with one `text`: the user text and the persona |
| `Gemini.PayloadOmitsModelAndKey` | netlify/functions/jd-assistant.js:38-44 | the payload is the same whatever the model and the key: both travel in the URL only |
| `Gemini.FailureMessageRoundTrip` | netlify/functions/cv-assistant.js:55 | the generic failure message names the upstream status exactly |
| `Gemini.Relay` | netlify/functions/cv-assistant.js:51-71 | 200 exactly when upstream is OK and its JSON parses, with that JSON unchanged; a non-OK status is relayed as that status with the generic message naming it; a rejection or parse failure gives 500 |
| `Gemini.RelayIgnoresErrorText` | netlify/functions/jd-assistant.js:52-57 | the upstream error text never reaches the caller: responses differing only in it are relayed identically |
| `CvAssistant.UserText` | netlify/functions/cv-assistant.js:37 | the user text is the fixed lead-in followed by the prompt exactly as received, untrimmed |
| `CvAssistant.Request` | netlify/functions/cv-assistant.js:36-49 | a POST with exactly the JSON content-type header; the URL names `gemini-2.5-flash-preview-05-20` and the key; the payload has exactly the keys `contents` and `systemInstruction` and carries the CV text and the persona |
| `CvAssistant.PromptCheck` | netlify/functions/cv-assistant.js:30-32 | a prompt passes exactly when it is a string with trimmed UTF-16 length at least 50; a falsy one fails as too short; a truthy non-string makes `trim` throw, giving 500 |
| `CvAssistant.Plan` | netlify/functions/cv-assistant.js:6-32 | the checks run method (405), JSON (400), API key (400), prompt, in that order; an absent body fails as a short prompt; exactly the accepted requests are forwarded, with the untrimmed prompt |
| `CvAssistant.Handle` | netlify/functions/cv-assistant.js:4-72 | an accepted request is answered with the relay of the one upstream call; any other request gets 400, 405 or 500 |
| `CvAssistant.NoUpstreamCallUnlessAccepted` | netlify/functions/cv-assistant.js:22-45 | a request that is not accepted gets the same response whatever `fetch` would do |
| `CvAssistant.LadderIgnoresKeyValue` | netlify/functions/cv-assistant.js:22-32 | any two configured API keys give the same immediate answer: the ladder never reads the key's value |
| `CvAssistant.MethodNotAllowedIff` | netlify/functions/cv-assistant.js:6-8 | the response is `405 Method Not Allowed` exactly when the method is not POST, whatever the body, key, parser or upstream |
| `CvAssistant.PromptLengthInCharacters` | netlify/functions/cv-assistant.js:30 | 50 characters after trimming always pass; fewer than 25 always fail |
| `JdAssistant.UserText` | netlify/functions/jd-assistant.js:39 | the user text is `Job Title: `, the title, a blank line and `Key Details: `, then the details, both untrimmed and at known positions |
| `JdAssistant.Request` | netlify/functions/jd-assistant.js:38-50 | a POST with exactly the JSON content-type header; the URL names the constant model `gemini-2.5-flash` and the key; the payload has exactly the keys `contents` and `systemInstruction` and carries the user text and the persona |
| `JdAssistant.FieldCheck` | netlify/functions/jd-assistant.js:32-34 | both fields pass exactly when each is a string that is not all whitespace; the title is judged before the details; a truthy non-string makes `trim` throw, giving 500 |
| `JdAssistant.Plan` | netlify/functions/jd-assistant.js:6-34 | the checks run method (405), JSON (400), API key (400), fields, in that order; an absent body fails the field test; exactly the accepted requests are forwarded with the untrimmed title and details |
| `JdAssistant.Handle` | netlify/functions/jd-assistant.js:4-73 | an accepted request is answered with the relay of the one upstream call; any other request gets 400, 405 or 500 |
| `JdAssistant.NoUpstreamCallUnlessAccepted` | netlify/functions/jd-assistant.js:23-46 | a request that is not accepted gets the same response whatever `fetch` would do |
| `JdAssistant.LadderIgnoresKeyValue` | netlify/functions/jd-assistant.js:23-34 | any two configured API keys give the same immediate answer: the ladder never reads the key's value |
| `JdAssistant.MethodNotAllowedIff` | netlify/functions/jd-assistant.js:6-8 | the response is `405 Method Not Allowed` exactly when the method is not POST |
| `FetchJobs.Url` | netlify/functions/fetch-jobs.js:5-24 | the URL is the API base, the raw base id, `/Jobs` and `?view=Grid%20view`; the base id can be read back from it |
| `FetchJobs.BearerRoundTrip` | netlify/functions/fetch-jobs.js:30 | the `Authorization` value carries the token unchanged behind `Bearer ` |
| `FetchJobs.Request` | netlify/functions/fetch-jobs.js:24-33 | a bodiless GET to the table URL with the bearer header and a JSON content type |
| `FetchJobs.Project` | netlify/functions/fetch-jobs.js:45-52 | `id` is copied; each other field is the upstream value when truthy, else its fixed default; a nullish record throws reading `id`, and a record without `fields` throws reading `Title`, with the engine's messages; every projected job has a truthy title and location |
| `FetchJobs.ProjectAll` | netlify/functions/fetch-jobs.js:45-52 | the map succeeds exactly when every record projects; then it has one job per record in upstream order; otherwise it fails with the first failing record's error |
| `FetchJobs.KeepListed` | netlify/functions/fetch-jobs.js:53 | the filter keeps exactly the jobs with truthy title and location, and returns its input unchanged exactly when all of them have both |
| `FetchJobs.FormatJobs` | netlify/functions/fetch-jobs.js:45-53 | a `null` body, a missing `records` or a non-array `records` throws; on success the output has one job per record in upstream order: the filter removes nothing |
| `FetchJobs.JobsValue` | netlify/functions/fetch-jobs.js:57 | the serialised list has one object per job, in order |
| `FetchJobs.Relay` | netlify/functions/fetch-jobs.js:35-66 | a non-OK status is relayed with the fixed message; 200 exactly when the body parses and projects, with the projected list; any throw gives 500 |
| `FetchJobs.Plan` | netlify/functions/fetch-jobs.js:9-21 | a method other than GET gets 405; a missing token or base id gets 500; exactly a GET with both configured is forwarded |
| `FetchJobs.Handle` | netlify/functions/fetch-jobs.js:7-67 | an accepted request is answered with the relay of the one upstream call; any other gets 405 or 500 |
| `FetchJobs.NoUpstreamCallUnlessAccepted` | netlify/functions/fetch-jobs.js:18-21 | without both configuration values no fetch is made: the response does not depend on `fetch` |
| `FetchJobs.LadderIgnoresCredentialValues` | netlify/functions/fetch-jobs.js:9-21 | any two configured tokens and base ids give the same immediate answer: the ladder never reads their values |
| `FetchJobs.ListingKeepsEveryRecord` | netlify/functions/fetch-jobs.js:42-58 | an OK response whose JSON has a `records` array whose records all have `fields` yields 200 with one job per record, in upstream order, each the projection of its record |

## Left out

- The network, `async`/`await` and the `fetch` call itself. The upstream outcome is an input: a status with its text and JSON outcome, or a rejection.
- A failure of `response.text()` on a non-OK response. The text is read only for logging.
- `console.error` logging. It has no effect on the response.
- `process.env`. Each variable is an optional string input; "unset or empty" is the falsy case.
- The JSON grammar and `JSON.parse`. The parser is a function parameter that yields a value or a SyntaxError message.
- `JSON.stringify`. A JSON body is kept as the value it serialises, so the fact that `stringify` drops keys whose value is `undefined` (an upstream record without `id`) is not modelled. Objects are maps, so the key order `stringify` emits is not modelled either: neither the insertion order of the six job keys (netlify/functions/fetch-jobs.js:47-52) nor that of the relayed upstream JSON (netlify/functions/cv-assistant.js:62).
- Numbers are exact reals. Rounding of JSON numbers to doubles is not modelled; it can only matter for a value like `1e-400` that rounds to the falsy `0`.
- JavaScript strings may hold lone surrogates. Dafny characters are Unicode scalar values, so such strings, and the URIError `encodeURIComponent` throws for them, are not modelled.
- `Gemini.Relay`: the catch block relays `error.message` verbatim in the 500 body, and the model relays whatever message a rejection or a failed `response.json()` carries. The handlers load node-fetch 2, whose error messages for a failed request and for an OK body that is not JSON name the request URL; that URL holds `?key=` and the Gemini API key. So the model does not promise that the key stays out of every response body, and the wording of node-fetch's messages is an input, not modelled.
- The wording of engine errors (`... is not a function`, `Cannot read properties of ...`) follows the V8 engine; only the `Server Error: ` prefix comes from the repository.
- The two persona prompts are included verbatim as constants. Nothing is proved about their wording.
- `KeepListed`: its contract states which jobs are kept and that it is the identity when every job is listed, not the relative order of kept jobs in general. The handler only ever applies it to fully listed input.
- `Stratford Gray Website/netlify/functions/api-proxy.js` (a generic proxy with OPTIONS preflight and CORS headers) is not part of this model.
