/** The `fetch-jobs` handler: a GET that reads the `Jobs` table of an
    Airtable base with a personal access token and answers with the records
    projected onto the six fields the front end shows. */
module FetchJobs {

  import opened Wrappers
  import opened JsValues
  import opened JsStrings
  import opened Http

  // ---------------------------------------------------------------------------
  // Request construction
  // ---------------------------------------------------------------------------

  const TableName := "Jobs"
  const ApiBase := "https://api.airtable.com/v0/"
  const ViewQuery := "?view=Grid%20view"

  /** `https://api.airtable.com/v0/${baseId}/${encodeURIComponent("Jobs")}?view=Grid%20view`.
      The base id is inserted as it is; the table name needs no escaping, so
      it appears literally. */
  function Url(baseId: string): (u: string)
    ensures u == ApiBase + baseId + "/Jobs" + ViewQuery
    ensures u[|ApiBase|..|ApiBase| + |baseId|] == baseId
  {
    assert AllUnreserved(TableName);
    EncodeIdentityIff(TableName);
    ApiBase + baseId + "/" + EncodeUriComponent(TableName) + ViewQuery
  }

  const BearerPrefix := "Bearer "

  function BearerHeader(token: string): string {
    BearerPrefix + token
  }

  /** The token carried by an `Authorization` header value, if it is a bearer one. */
  function TokenOfBearer(h: string): Option<string> {
    if |h| >= |BearerPrefix| && h[..|BearerPrefix|] == BearerPrefix then Some(h[|BearerPrefix|..])
    else None
  }

  /** The header carries the token, unchanged, behind the `Bearer ` scheme. */
  lemma BearerRoundTrip(token: string)
    ensures TokenOfBearer(BearerHeader(token)) == Some(token)
  {
  }

  /** The `fetch` call: a bodiless GET with the bearer token and a JSON content type. */
  function Request(token: string, baseId: string): (r: Outbound)
    ensures r.httpMethod == "GET" && r.payload.None?
    ensures r.url == ApiBase + baseId + "/Jobs" + ViewQuery
    ensures |r.headers| == 2 && r.headers[0].0 == "Authorization" && r.headers[1] == JsonContentType
    ensures TokenOfBearer(r.headers[0].1) == Some(token)
  {
    BearerRoundTrip(token);
    Outbound("GET", Url(baseId), [("Authorization", BearerHeader(token)), JsonContentType], None)
  }

  // ---------------------------------------------------------------------------
  // Record projection
  // ---------------------------------------------------------------------------

  /** A job as the front end receives it. Each field holds whatever value the
      upstream record had there (not necessarily a string) or its default. */
  datatype Job = Job(
    id: JsValue,
    title: JsValue,
    location: JsValue,
    salary: JsValue,
    shortDesc: JsValue,
    longDesc: JsValue)

  const NoTitle := "No Title"
  const Remote := "Remote"
  const Competitive := "Competitive"
  const NewOpportunity := "A new opportunity."
  const DetailsSoon := "Details coming soon."

  /** An output field taken from upstream value `v` with default `d`:
      `v` itself when truthy, otherwise `d`. */
  predicate FromOr(out: JsValue, v: JsValue, d: string) {
    (Truthy(v) && out == v) || (!Truthy(v) && out == Str(d))
  }

  /** The `.filter` test of the handler: `job.title && job.location`. */
  predicate Listed(j: Job) {
    Truthy(j.title) && Truthy(j.location)
  }

  /** The `.map` callback applied to one upstream record. Reading `record.id`
      throws when the record is `null`, and reading `fields['Title']` throws
      when the record has no `fields`; otherwise every field comes from
      `fields` under its Airtable column name, or takes its default. */
  function Project(record: JsValue): (r: Result<Job>)
    ensures r.Failure? <==> Nullish(record) || Nullish(Property(record, "fields"))
    ensures Nullish(record) ==> r == Failure(ReadError(record, "id"))
    ensures !Nullish(record) && Nullish(Property(record, "fields")) ==>
      r == Failure(ReadError(Property(record, "fields"), "Title"))
    ensures r.Success? ==>
      var f := Property(record, "fields");
      && r.value.id == Property(record, "id")
      && FromOr(r.value.title, Property(f, "Title"), NoTitle)
      && FromOr(r.value.location, Property(f, "Location"), Remote)
      && FromOr(r.value.salary, Property(f, "Salary Range"), Competitive)
      && FromOr(r.value.shortDesc, Property(f, "Short Description"), NewOpportunity)
      && FromOr(r.value.longDesc, Property(f, "Long Description"), DetailsSoon)
    ensures r.Success? ==> Listed(r.value)
  {
    if Nullish(record) then Failure(ReadError(record, "id"))
    else
      var f := Property(record, "fields");
      if Nullish(f) then Failure(ReadError(f, "Title"))
      else
        Success(Job(
          Property(record, "id"),
          Or(Property(f, "Title"), Str(NoTitle)),
          Or(Property(f, "Location"), Str(Remote)),
          Or(Property(f, "Salary Range"), Str(Competitive)),
          Or(Property(f, "Short Description"), Str(NewOpportunity)),
          Or(Property(f, "Long Description"), Str(DetailsSoon))))
  }

  /** `records.map(...)`: the projections in upstream order, or the exception
      of the first record whose projection throws. */
  function ProjectAll(records: seq<JsValue>): (r: Result<seq<Job>>)
    ensures r.Success? <==> forall i :: 0 <= i < |records| ==> Project(records[i]).Success?
    ensures r.Success? ==> |r.value| == |records|
    ensures r.Success? ==> forall i :: 0 <= i < |records| ==> r.value[i] == Project(records[i]).value
    ensures r.Failure? ==> exists i :: 0 <= i < |records| && FirstFailure(records, i)
                                       && r.message == Project(records[i]).message
  {
    if records == [] then Success([])
    else
      match Project(records[0])
      case Failure(m) =>
        assert FirstFailure(records, 0);
        Failure(m)
      case Success(job) =>
        match ProjectAll(records[1..])
        case Failure(m) =>
          var i :| 0 <= i < |records[1..]| && FirstFailure(records[1..], i)
                   && m == Project(records[1..][i]).message;
          assert FirstFailure(records, i + 1);
          Failure(m)
        case Success(jobs) => Success([job] + jobs)
  }

  /** Record `i` is the first one whose projection throws. */
  predicate FirstFailure(records: seq<JsValue>, i: nat)
    requires i < |records|
  {
    Project(records[i]).Failure? && forall j :: 0 <= j < i ==> Project(records[j]).Success?
  }

  /** `.filter(job => job.title && job.location)`: the listed jobs, in
      order. It returns its argument unchanged exactly when every job in it is
      listed. */
  function KeepListed(jobs: seq<Job>): (r: seq<Job>)
    ensures |r| <= |jobs|
    ensures forall j :: j in r <==> j in jobs && Listed(j)
    ensures r == jobs <==> forall i :: 0 <= i < |jobs| ==> Listed(jobs[i])
  {
    if jobs == [] then []
    else if Listed(jobs[0]) then [jobs[0]] + KeepListed(jobs[1..])
    else KeepListed(jobs[1..])
  }

  /** `data.records.map(...).filter(...)` on the parsed upstream body. Reading
      `records` of `null` throws, `.map` of a missing `records` throws, and a
      `records` that is not an array has no `map` to call. Because every
      projected job is listed, the filter removes nothing: the result has one
      job per upstream record, in upstream order. */
  function FormatJobs(data: JsValue): (r: Result<seq<Job>>)
    ensures Nullish(data) ==> r == Failure(ReadError(data, "records"))
    ensures !Nullish(data) && Nullish(Property(data, "records")) ==>
      r == Failure(ReadError(Property(data, "records"), "map"))
    ensures !Nullish(data) && !Nullish(Property(data, "records")) && !Property(data, "records").Arr? ==>
      r == Failure(NotAFunction("data.records.map"))
    ensures r.Success? ==> Property(data, "records").Arr?
    ensures r.Success? ==>
      var records := Property(data, "records").items;
      && |r.value| == |records|
      && forall i :: 0 <= i < |records| ==>
           Project(records[i]).Success? && r.value[i] == Project(records[i]).value
    ensures Property(data, "records").Arr? ==>
      (r.Success? <==> forall i :: 0 <= i < |Property(data, "records").items| ==>
                         Project(Property(data, "records").items[i]).Success?)
  {
    if Nullish(data) then Failure(ReadError(data, "records"))
    else
      var records := Property(data, "records");
      if Nullish(records) then Failure(ReadError(records, "map"))
      else if !records.Arr? then Failure(NotAFunction("data.records.map"))
      else
        match ProjectAll(records.items)
        case Failure(m) => Failure(m)
        case Success(jobs) => Success(KeepListed(jobs))
  }

  /** The object a job is serialised from. */
  function JobValue(j: Job): JsValue {
    Obj(map["id" := j.id, "title" := j.title, "location" := j.location,
            "salary" := j.salary, "shortDesc" := j.shortDesc, "longDesc" := j.longDesc])
  }

  function JobsValue(jobs: seq<Job>): (v: JsValue)
    ensures v.Arr? && |v.items| == |jobs|
    ensures forall i :: 0 <= i < |jobs| ==> v.items[i] == JobValue(jobs[i])
  {
    Arr(seq(|jobs|, i requires 0 <= i < |jobs| => JobValue(jobs[i])))
  }

  // ---------------------------------------------------------------------------
  // Handler
  // ---------------------------------------------------------------------------

  const ConfigMissingMessage := "Airtable token or Base ID is missing."
  const FetchFailedMessage := "Failed to fetch jobs from Airtable."

  /** What the handler returns once `fetch` has settled: a non-OK status is
      relayed with a fixed message; an OK body is projected; a rejection, an
      unreadable body or a throw during projection becomes a 500. */
  function Relay(o: UpstreamOutcome): (r: Response)
    ensures o.Responded? && !IsOk(o.status) ==>
      r == ErrorResponse(o.status, FetchFailedMessage)
    ensures o.Rejected? ==> r == ServerError(o.message)
    ensures o.Responded? && IsOk(o.status) && o.json.ParseError? ==> r == ServerError(o.json.message)
    ensures o.Responded? && IsOk(o.status) && o.json.Parsed? && FormatJobs(o.json.value).Failure? ==>
      r == ServerError(FormatJobs(o.json.value).message)
    ensures r.statusCode == 200 <==>
      o.Responded? && IsOk(o.status) && o.json.Parsed? && FormatJobs(o.json.value).Success?
    ensures r.statusCode == 200 ==> r.body == Json(JobsValue(FormatJobs(o.json.value).value))
  {
    match o
    case Rejected(message) => ServerError(message)
    case Responded(status, _, json) =>
      if !IsOk(status) then ErrorResponse(status, FetchFailedMessage)
      else
        match json
        case ParseError(message) => ServerError(message)
        case Parsed(data) =>
          match FormatJobs(data)
          case Failure(message) => ServerError(message)
          case Success(jobs) => Response(200, Json(JobsValue(jobs)))
  }

  /** The handler calls upstream exactly for a GET with both the token and the
      base id configured. */
  predicate Accepted(event: Event, token: Option<string>, baseId: Option<string>) {
    event.httpMethod == "GET" && EnvSet(token) && EnvSet(baseId)
  }

  /** The ladder up to the `fetch` call. */
  function Plan(event: Event, token: Option<string>, baseId: Option<string>): (r: Step)
    ensures event.httpMethod != "GET" ==> r == Respond(MethodNotAllowed)
    ensures event.httpMethod == "GET" && !(EnvSet(token) && EnvSet(baseId)) ==>
      r == Respond(ErrorResponse(500, ConfigMissingMessage))
    ensures r.Forward? <==> Accepted(event, token, baseId)
    ensures r.Forward? ==> r.request == Request(token.value, baseId.value)
  {
    if event.httpMethod != "GET" then Respond(MethodNotAllowed)
    else if !EnvSet(token) || !EnvSet(baseId) then Respond(ErrorResponse(500, ConfigMissingMessage))
    else Forward(Request(token.value, baseId.value))
  }

  /** `exports.handler`. `upstream` stands for `fetch`; the event body is never read. */
  function Handle(event: Event, token: Option<string>, baseId: Option<string>,
                  upstream: Outbound -> UpstreamOutcome): (r: Response)
    ensures Accepted(event, token, baseId) ==> r == Relay(upstream(Request(token.value, baseId.value)))
    ensures !Accepted(event, token, baseId) ==> r.statusCode in {405, 500}
  {
    match Plan(event, token, baseId)
    case Respond(response) => response
    case Forward(request) => Relay(upstream(request))
  }

  /** Without both configuration values no fetch is made: the response is the
      same whatever `fetch` would have done. */
  lemma NoUpstreamCallUnlessAccepted(event: Event, token: Option<string>, baseId: Option<string>,
                                     upstream1: Outbound -> UpstreamOutcome,
                                     upstream2: Outbound -> UpstreamOutcome)
    requires !Accepted(event, token, baseId)
    ensures Handle(event, token, baseId, upstream1) == Handle(event, token, baseId, upstream2)
  {
  }

  /** The ladder's own answers never depend on the values of the token and
      the base id, only on whether they are configured. */
  lemma LadderIgnoresCredentialValues(event: Event, token1: string, token2: string,
                                      baseId1: string, baseId2: string)
    requires token1 != [] && token2 != [] && baseId1 != [] && baseId2 != []
    requires Plan(event, Some(token1), Some(baseId1)).Respond?
    ensures Plan(event, Some(token1), Some(baseId1)) == Plan(event, Some(token2), Some(baseId2))
  {
  }

  /** End to end: when upstream answers OK with a `records` array whose every
      record has `fields`, the response is 200 with exactly one job per
      record, in upstream order, each the projection of its record. */
  lemma ListingKeepsEveryRecord(event: Event, token: Option<string>, baseId: Option<string>,
                                upstream: Outbound -> UpstreamOutcome, status: nat, text: string,
                                data: JsValue, records: seq<JsValue>)
    requires Accepted(event, token, baseId)
    requires upstream(Request(token.value, baseId.value)) == Responded(status, text, Parsed(data))
    requires Property(data, "records") == Arr(records)
    requires IsOk(status)
    requires forall i :: 0 <= i < |records| ==>
               !Nullish(records[i]) && !Nullish(Property(records[i], "fields"))
    ensures var r := Handle(event, token, baseId, upstream);
      && r.statusCode == 200 && r.body.Json? && r.body.value.Arr?
      && |r.body.value.items| == |records|
      && forall i :: 0 <= i < |records| ==>
           r.body.value.items[i] == JobValue(Project(records[i]).value)
  {
  }
}
