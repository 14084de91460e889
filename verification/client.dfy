/** `PiwikAnalytics`: the five client operations as descriptions of the API
    call they issue, and `_make_api_call` as one step that refreshes the
    token if needed and then classifies the HTTP outcome. */
module Client {
  import opened Wrappers
  import Metrics
  import TokenCache
  import Http

  /** The attributes of a user annotation resource. */
  datatype AnnotationAttributes = AnnotationAttributes(
    content: string,
    websiteId: string,
    date: string,
    visibility: string)

  /** `{"data": {"type": kind, "attributes": attributes}}`. */
  datatype Envelope = Envelope(kind: string, attributes: AnnotationAttributes)

  const AnnotationType: string := "UserAnnotation"

  /** The visibility `create_annotation` uses when none is given. */
  const DefaultVisibility: string := "private"

  /** The annotation envelope. `date or today`: an absent or empty date falls
      back to the current date, which is an input here. */
  function BuildAnnotation(websiteId: string, content: string, date: Option<string>, visibility: string, today: string): (e: Envelope)
    ensures e.kind == AnnotationType
    ensures e.attributes.content == content && e.attributes.websiteId == websiteId
    ensures e.attributes.visibility == visibility
    ensures date.Some? && date.value != "" ==> e.attributes.date == date.value
    ensures date.None? || date.value == "" ==> e.attributes.date == today
  {
    var d := if date.Some? && date.value != "" then date.value else today;
    Envelope(AnnotationType, AnnotationAttributes(content, websiteId, d, visibility))
  }

  /** A non-empty current date guarantees the envelope always has a date. */
  lemma AnnotationDateNeverEmpty(websiteId: string, content: string, date: Option<string>, visibility: string, today: string)
    requires today != ""
    ensures BuildAnnotation(websiteId, content, date, visibility, today).attributes.date != ""
  {
  }

  /** The client operations a tool can delegate to. */
  datatype Request =
    | GetWebsites
    | GetWebsiteDetails(websiteId: string)
    | GetMetrics(websiteId: string, dateFrom: string, dateTo: string, columns: seq<string>)
    | CreateAnnotation(websiteId: string, content: string, date: Option<string>, visibility: string)
    | GetAnnotations(websiteId: string)

  datatype Body = NoBody | QueryBody(query: Metrics.MetricsQuery) | AnnotationBody(envelope: Envelope)

  /** The arguments of one `_make_api_call`: endpoint path, HTTP verb, JSON body. */
  datatype ApiCall = ApiCall(endpoint: string, verb: string, body: Body)

  const WebsitesEndpoint: string := "/api/apps/v2"
  const AnalyticsBase: string := "/api/analytics/v1"
  const QueryEndpoint: string := AnalyticsBase + "/query"
  const CreateAnnotationEndpoint: string := AnalyticsBase + "/manage/annotation/user/"
  const AnnotationsPrefix: string := AnalyticsBase + "/manage/annotation/user?website_id="

  /** The API call each client operation makes. */
  function CallFor(req: Request, today: string): (c: ApiCall)
    ensures c.verb in Http.SupportedMethods
    ensures c.verb == (if req.GetMetrics? || req.CreateAnnotation? then "POST" else "GET")
    ensures c.body.QueryBody? <==> req.GetMetrics?
    ensures c.body.AnnotationBody? <==> req.CreateAnnotation?
    ensures req.GetWebsites? ==> c.endpoint == WebsitesEndpoint
    ensures req.GetWebsiteDetails? ==> c.endpoint == WebsitesEndpoint + "/" + req.websiteId
    ensures req.GetMetrics? ==>
      c.endpoint == QueryEndpoint
      && c.body.query == Metrics.BuildQuery(req.websiteId, req.dateFrom, req.dateTo, req.columns)
    ensures req.CreateAnnotation? ==>
      c.endpoint == CreateAnnotationEndpoint
      && c.body.envelope == BuildAnnotation(req.websiteId, req.content, req.date, req.visibility, today)
    ensures req.GetAnnotations? ==> c.endpoint == AnnotationsPrefix + req.websiteId
  {
    match req
    case GetWebsites => ApiCall(WebsitesEndpoint, "GET", NoBody)
    case GetWebsiteDetails(id) => ApiCall(WebsitesEndpoint + "/" + id, "GET", NoBody)
    case GetMetrics(id, from, to, columns) =>
      ApiCall(QueryEndpoint, "POST", QueryBody(Metrics.BuildQuery(id, from, to, columns)))
    case CreateAnnotation(id, content, date, visibility) =>
      ApiCall(CreateAnnotationEndpoint, "POST", AnnotationBody(BuildAnnotation(id, content, date, visibility, today)))
    case GetAnnotations(id) => ApiCall(AnnotationsPrefix + id, "GET", NoBody)
  }

  /** The website id can be read back from the endpoint of the two operations
      that put it in the path, so distinct ids address distinct resources. */
  lemma EndpointRecoversWebsiteId(req: Request, today: string)
    requires req.GetWebsiteDetails? || req.GetAnnotations?
    ensures var e := CallFor(req, today).endpoint;
      && (req.GetWebsiteDetails? ==> |e| >= |WebsitesEndpoint| + 1 && e[|WebsitesEndpoint| + 1..] == req.websiteId)
      && (req.GetAnnotations? ==> |e| >= |AnnotationsPrefix| && e[|AnnotationsPrefix|..] == req.websiteId)
  {
  }

  /** Errors a client call can raise. */
  datatype ClientError = AuthFailed(auth: TokenCache.AuthError) | ApiFailed(api: Http.ApiError)

  function Lift(r: Result<Http.Payload, Http.ApiError>): Result<Http.Payload, ClientError> {
    match r
    case Success(p) => Success(p)
    case Failure(err) => Failure(ApiFailed(err))
  }

  /** The visible effect of one `_make_api_call`: the new token cache, the
      outcome, whether a token exchange happened, the bearer token the HTTP
      request was sent with, and the request itself (both `None` when no
      request was sent). */
  datatype Effect = Effect(
    cache: TokenCache.Cache,
    result: Result<Http.Payload, ClientError>,
    exchanged: bool,
    bearer: Option<string>,
    sent: Option<ApiCall>)

  /** `_make_api_call`: the token comes first, then the verb is checked, then
      the response is classified. */
  function MakeApiCall(cache: TokenCache.Cache, now: int, x: TokenCache.Exchange, call: ApiCall, t: Http.Transport): (e: Effect)
    ensures var s := TokenCache.GetAuthToken(cache, now, x);
      && e.cache == s.cache && e.exchanged == s.exchanged
      && (s.result.Failure? ==> e.result == Failure(AuthFailed(s.result.error)))
      && (s.result.Success? && call.verb !in Http.SupportedMethods ==>
            e.result == Failure(ApiFailed(Http.UnsupportedMethod(call.verb))))
    ensures e.exchanged <==> !TokenCache.Fresh(cache, now)
    ensures e.bearer.Some? <==>
      TokenCache.GetAuthToken(cache, now, x).result.Success? && call.verb in Http.SupportedMethods
    ensures e.bearer.Some? ==> e.cache.token == e.bearer
    ensures e.sent == (if e.bearer.Some? then Some(call) else None)
    ensures e.bearer.Some? ==> e.result == Lift(Http.Classify(call.verb, t))
    ensures e.result.Failure? && e.result.error.AuthFailed? ==> e.cache == cache && e.bearer.None?
    ensures call.verb !in Http.SupportedMethods && e.result.Failure? && e.result.error.ApiFailed? ==>
      e.result.error.api == Http.UnsupportedMethod(call.verb)
  {
    var s := TokenCache.GetAuthToken(cache, now, x);
    if s.result.Failure? then
      Effect(cache, Failure(AuthFailed(s.result.error)), s.exchanged, None, None)
    else if call.verb !in Http.SupportedMethods then
      Effect(s.cache, Failure(ApiFailed(Http.UnsupportedMethod(call.verb))), s.exchanged, None, None)
    else
      Effect(s.cache, Lift(Http.Classify(call.verb, t)), s.exchanged, Some(s.result.value), Some(call))
  }
}
