/** The five MCP tools: each checks its arguments in a fixed order, failing
    before any client call, and then delegates to one client operation. */
module Tools {
  import opened Wrappers
  import Metrics
  import TokenCache
  import Http
  import Client

  /** The credentials read from the environment at start-up. */
  datatype Credentials = Credentials(clientId: Option<string>, clientSecret: Option<string>)

  /** The client object exists only when both credentials are present and
      non-empty. */
  predicate Initialised(c: Credentials) {
    c.clientId.Some? && c.clientId.value != "" && c.clientSecret.Some? && c.clientSecret.value != ""
  }

  /** A tool invocation with its arguments. Omitted optional arguments of
      `create_annotation` are `None`. */
  datatype ToolCall =
    | ListWebsites
    | GetWebsiteDetails(websiteId: string)
    | GetMetrics(websiteId: string, dateFrom: string, dateTo: string, columns: seq<string>)
    | CreateAnnotation(websiteId: string, content: string, date: Option<string>, visibility: Option<string>)
    | GetAnnotations(websiteId: string)

  /** The validation failures, in the order the checks run. */
  datatype ToolError =
    | ClientNotInitialized
    | WebsiteIdRequired
    | DateFromRequired
    | DateToRequired
    | ColumnsRequired
    | ContentRequired
    | ContentTooLong
    | InvalidVisibility

  const MaxContentLength: nat := 150

  const Visibilities: set<string> := {"private", "public"}

  function ValidateListWebsites(initialised: bool): (r: Result<Client.Request, ToolError>)
    ensures r.Success? <==> initialised
    ensures r.Success? ==> r.value == Client.GetWebsites
  {
    if !initialised then Failure(ClientNotInitialized)
    else Success(Client.GetWebsites)
  }

  function ValidateGetWebsiteDetails(initialised: bool, websiteId: string): (r: Result<Client.Request, ToolError>)
    ensures r.Success? <==> initialised && websiteId != ""
    ensures r.Success? ==> r.value == Client.GetWebsiteDetails(websiteId)
    ensures !initialised ==> r == Failure(ClientNotInitialized)
  {
    if !initialised then Failure(ClientNotInitialized)
    else if websiteId == "" then Failure(WebsiteIdRequired)
    else Success(Client.GetWebsiteDetails(websiteId))
  }

  /** Only emptiness of the column list is checked: a list of unknown names
      passes and resolves to no columns later. */
  function ValidateGetMetrics(initialised: bool, websiteId: string, dateFrom: string, dateTo: string, columns: seq<string>): (r: Result<Client.Request, ToolError>)
    ensures r.Success? <==> initialised && websiteId != "" && dateFrom != "" && dateTo != "" && |columns| > 0
    ensures r.Success? ==> r.value == Client.GetMetrics(websiteId, dateFrom, dateTo, columns)
    ensures !initialised ==> r == Failure(ClientNotInitialized)
  {
    if !initialised then Failure(ClientNotInitialized)
    else if websiteId == "" then Failure(WebsiteIdRequired)
    else if dateFrom == "" then Failure(DateFromRequired)
    else if dateTo == "" then Failure(DateToRequired)
    else if |columns| == 0 then Failure(ColumnsRequired)
    else Success(Client.GetMetrics(websiteId, dateFrom, dateTo, columns))
  }

  /** An omitted visibility is the tool's default, `"private"`. */
  function ValidateCreateAnnotation(initialised: bool, websiteId: string, content: string, date: Option<string>, visibility: Option<string>): (r: Result<Client.Request, ToolError>)
    ensures r.Success? <==>
      && initialised && websiteId != "" && content != "" && |content| <= MaxContentLength
      && visibility.GetOr(Client.DefaultVisibility) in Visibilities
    ensures r.Success? ==>
      r.value == Client.CreateAnnotation(websiteId, content, date, visibility.GetOr(Client.DefaultVisibility))
    ensures !initialised ==> r == Failure(ClientNotInitialized)
  {
    var vis := visibility.GetOr(Client.DefaultVisibility);
    if !initialised then Failure(ClientNotInitialized)
    else if websiteId == "" then Failure(WebsiteIdRequired)
    else if content == "" then Failure(ContentRequired)
    else if |content| > MaxContentLength then Failure(ContentTooLong)
    else if vis !in Visibilities then Failure(InvalidVisibility)
    else Success(Client.CreateAnnotation(websiteId, content, date, vis))
  }

  function ValidateGetAnnotations(initialised: bool, websiteId: string): (r: Result<Client.Request, ToolError>)
    ensures r.Success? <==> initialised && websiteId != ""
    ensures r.Success? ==> r.value == Client.GetAnnotations(websiteId)
    ensures !initialised ==> r == Failure(ClientNotInitialized)
  {
    if !initialised then Failure(ClientNotInitialized)
    else if websiteId == "" then Failure(WebsiteIdRequired)
    else Success(Client.GetAnnotations(websiteId))
  }

  function Validate(initialised: bool, call: ToolCall): Result<Client.Request, ToolError> {
    match call
    case ListWebsites => ValidateListWebsites(initialised)
    case GetWebsiteDetails(id) => ValidateGetWebsiteDetails(initialised, id)
    case GetMetrics(id, from, to, columns) => ValidateGetMetrics(initialised, id, from, to, columns)
    case CreateAnnotation(id, content, date, vis) => ValidateCreateAnnotation(initialised, id, content, date, vis)
    case GetAnnotations(id) => ValidateGetAnnotations(initialised, id)
  }

  /** Position of each check in the common order. */
  function Rank(e: ToolError): nat {
    match e
    case ClientNotInitialized => 0
    case WebsiteIdRequired => 1
    case DateFromRequired => 2
    case DateToRequired => 3
    case ColumnsRequired => 4
    case ContentRequired => 5
    case ContentTooLong => 6
    case InvalidVisibility => 7
  }

  /** Which checks an invocation fails, independently of their order. */
  predicate Violated(initialised: bool, call: ToolCall, e: ToolError) {
    match e
    case ClientNotInitialized => !initialised
    case WebsiteIdRequired => !call.ListWebsites? && call.websiteId == ""
    case DateFromRequired => call.GetMetrics? && call.dateFrom == ""
    case DateToRequired => call.GetMetrics? && call.dateTo == ""
    case ColumnsRequired => call.GetMetrics? && |call.columns| == 0
    case ContentRequired => call.CreateAnnotation? && call.content == ""
    case ContentTooLong => call.CreateAnnotation? && |call.content| > MaxContentLength
    case InvalidVisibility =>
      call.CreateAnnotation? && call.visibility.GetOr(Client.DefaultVisibility) !in Visibilities
  }

  /** Validation succeeds exactly when no check is violated, and otherwise
      reports the earliest violated check. */
  lemma {:induction false} ValidateReportsFirstViolation(initialised: bool, call: ToolCall)
    ensures Validate(initialised, call).Success? <==> forall e :: !Violated(initialised, call, e)
    ensures Validate(initialised, call).Failure? ==>
      var err := Validate(initialised, call).error;
      && Violated(initialised, call, err)
      && forall e :: Rank(e) < Rank(err) ==> !Violated(initialised, call, e)
  {
    var r := Validate(initialised, call);
    if r.Success? {
      forall e ensures !Violated(initialised, call, e) {
        match e
        case ClientNotInitialized =>
        case WebsiteIdRequired =>
        case DateFromRequired =>
        case DateToRequired =>
        case ColumnsRequired =>
        case ContentRequired =>
        case ContentTooLong =>
        case InvalidVisibility =>
      }
    } else {
      forall e | Rank(e) < Rank(r.error) ensures !Violated(initialised, call, e) {
        match e
        case ClientNotInitialized =>
        case WebsiteIdRequired =>
        case DateFromRequired =>
        case DateToRequired =>
        case ColumnsRequired =>
        case ContentRequired =>
        case ContentTooLong =>
        case InvalidVisibility =>
      }
      assert Violated(initialised, call, r.error);
    }
  }

  /** Everything outside the tool's arguments that one invocation depends on:
      start-up credentials, the token cache, the clock, the date of today,
      and the outcomes of the token exchange and of the HTTP request. */
  datatype Env = Env(
    credentials: Credentials,
    cache: TokenCache.Cache,
    now: int,
    today: string,
    exchange: TokenCache.Exchange,
    transport: Http.Transport)

  datatype ToolFailure = Invalid(error: ToolError) | Failed(cause: Client.ClientError)

  /** What an invocation returns (before JSON serialisation) and what it did:
      the new cache, whether it exchanged a token, and the bearer token and
      API call of the HTTP request it sent, if any. */
  datatype Outcome = Outcome(
    cache: TokenCache.Cache,
    result: Result<Http.Payload, ToolFailure>,
    exchanged: bool,
    bearer: Option<string>,
    sent: Option<Client.ApiCall>)

  /** A tool invocation: validation first, then exactly one client call. */
  function Invoke(env: Env, call: ToolCall): (o: Outcome)
    ensures Validate(Initialised(env.credentials), call).Failure? ==>
      o == Outcome(env.cache, Failure(Invalid(Validate(Initialised(env.credentials), call).error)), false, None, None)
    ensures Validate(Initialised(env.credentials), call).Success? ==>
      var req := Validate(Initialised(env.credentials), call).value;
      var s := TokenCache.GetAuthToken(env.cache, env.now, env.exchange);
      var c := Client.CallFor(req, env.today);
      && o.cache == s.cache
      && (o.exchanged <==> !TokenCache.Fresh(env.cache, env.now))
      && (o.bearer.Some? <==> s.result.Success?)
      && (o.bearer.Some? ==> o.cache.token == o.bearer)
      && o.sent == (if s.result.Success? then Some(c) else None)
      && (s.result.Failure? ==> o.result == Failure(Failed(Client.AuthFailed(s.result.error))))
      && (s.result.Success? ==>
            match Http.Classify(c.verb, env.transport)
            case Success(p) => o.result == Success(p)
            case Failure(err) => o.result == Failure(Failed(Client.ApiFailed(err))))
  {
    match Validate(Initialised(env.credentials), call)
    case Failure(err) => Outcome(env.cache, Failure(Invalid(err)), false, None, None)
    case Success(req) =>
      var e := Client.MakeApiCall(env.cache, env.now, env.exchange, Client.CallFor(req, env.today), env.transport);
      var result := match e.result
        case Success(p) => Success(p)
        case Failure(cause) => Failure(Failed(cause));
      Outcome(e.cache, result, e.exchanged, e.bearer, e.sent)
  }

  /** Without credentials every tool fails with the initialisation error,
      whatever its arguments, and neither exchanges a token nor sends a
      request. */
  lemma UninitialisedFailsFirst(env: Env, call: ToolCall)
    requires !Initialised(env.credentials)
    ensures Invoke(env, call) == Outcome(env.cache, Failure(Invalid(ClientNotInitialized)), false, None, None)
  {
  }

  /** Content of exactly 150 characters passes validation; 151 fails it
      before the client is called, even when the visibility is also bad. */
  lemma AnnotationLengthBoundary(env: Env)
    requires Initialised(env.credentials)
    ensures var ok := seq(150, _ => 'a');
      Validate(true, CreateAnnotation("1", ok, None, None)).Success?
    ensures var long := seq(151, _ => 'a');
      Invoke(env, CreateAnnotation("1", long, None, Some("secret"))) ==
        Outcome(env.cache, Failure(Invalid(ContentTooLong)), false, None, None)
  {
  }

  /** An unknown visibility is rejected; an omitted one becomes `"private"`
      in the annotation that is sent. */
  lemma AnnotationVisibility(id: string, content: string, date: Option<string>, today: string)
    requires id != "" && content != "" && |content| <= MaxContentLength
    ensures Validate(true, CreateAnnotation(id, content, date, Some("secret"))) == Failure(InvalidVisibility)
    ensures var r := Validate(true, CreateAnnotation(id, content, date, None));
      && r.Success?
      && Client.CallFor(r.value, today).body.envelope.attributes.visibility == "private"
  {
  }

  /** A non-empty list of only unknown names passes validation and yields a
      query with no columns. */
  lemma UnknownColumnsPassValidation(id: string, from: string, to: string, columns: seq<string>, today: string)
    requires id != "" && from != "" && to != "" && |columns| > 0
    requires forall i :: 0 <= i < |columns| ==> columns[i] !in Metrics.MetricMapping
    ensures var r := Validate(true, GetMetrics(id, from, to, columns));
      && r.Success?
      && Client.CallFor(r.value, today).body.query.columns == []
  {
    Metrics.ResolveUnknownOnly(columns);
  }

  /** `list_websites` with working credentials sends one GET of the website
      list, without a body and with the token in the cache afterwards, and
      returns the decoded JSON body of a successful response. */
  lemma ListWebsitesEndToEnd(env: Env, doc: Http.Json, text: string)
    requires Initialised(env.credentials)
    requires TokenCache.Fresh(env.cache, env.now) || env.exchange.Granted?
    requires env.transport == Http.Received(Http.Response(200, text, Some(doc)))
    ensures var o := Invoke(env, ListWebsites);
      && o.result == Success(Http.JsonPayload(doc)) && o.bearer.Some? && o.cache.token == o.bearer
      && o.sent == Some(Client.ApiCall("/api/apps/v2", "GET", Client.NoBody))
  {
  }

  /** Whether two invocations are of the same tool, whatever their arguments. */
  predicate SameTool(a: ToolCall, b: ToolCall) {
    && a.ListWebsites? == b.ListWebsites?
    && a.GetWebsiteDetails? == b.GetWebsiteDetails?
    && a.GetMetrics? == b.GetMetrics?
    && a.CreateAnnotation? == b.CreateAnnotation?
    && a.GetAnnotations? == b.GetAnnotations?
  }

  /** The request sent is the invoked tool's own: two different tools that
      pass validation never send the same API call. */
  lemma DifferentToolsSendDifferentCalls(env: Env, a: ToolCall, b: ToolCall)
    requires Validate(Initialised(env.credentials), a).Success?
    requires Validate(Initialised(env.credentials), b).Success?
    requires TokenCache.GetAuthToken(env.cache, env.now, env.exchange).result.Success?
    requires !SameTool(a, b)
    ensures Invoke(env, a).sent.Some? && Invoke(env, b).sent.Some?
    ensures Invoke(env, a).sent != Invoke(env, b).sent
  {
    var ca := Invoke(env, a).sent.value;
    var cb := Invoke(env, b).sent.value;
    if ca.verb == cb.verb && ca.body.NoBody? && cb.body.NoBody? {
      // the three GET operations differ in their endpoints
      // "/api/apps/v2..." and "/api/analytics/..." part at index 6
      assert Client.WebsitesEndpoint[6] == 'p';
      assert Client.AnnotationsPrefix[6] == 'n';
      assert |ca.endpoint| > 6 && |cb.endpoint| > 6;
      assert ca.endpoint[6] == 'p' <==> !a.GetAnnotations?;
      assert cb.endpoint[6] == 'p' <==> !b.GetAnnotations?;
      if !a.GetAnnotations? && !b.GetAnnotations? {
        assert |ca.endpoint| == 12 <==> a.ListWebsites?;
        assert |cb.endpoint| == 12 <==> b.ListWebsites?;
      }
    }
  }

  /** Two invocations in a row: the second one, inside the lifetime of the
      token the first one obtained, reuses it. */
  lemma SecondInvocationReusesToken(env: Env, first: ToolCall, second: ToolCall, later: int, x2: TokenCache.Exchange, t2: Http.Transport)
    requires Validate(Initialised(env.credentials), first).Success?
    requires !TokenCache.Fresh(env.cache, env.now)
    requires env.exchange.Granted? && env.exchange.accessToken != ""
    requires env.now + TokenCache.ExpiresIn(env.exchange) != 0
    requires later < env.now + TokenCache.ExpiresIn(env.exchange)
    ensures var o1 := Invoke(env, first);
      var o2 := Invoke(env.(cache := o1.cache, now := later, exchange := x2, transport := t2), second);
      && o1.exchanged && !o2.exchanged && o2.cache == o1.cache
  {
  }
}
