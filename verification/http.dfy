/** The response handling of `PiwikAnalytics._make_api_call`: which HTTP
    methods are dispatched and how a response (or its absence) becomes a
    returned value or a raised error. The HTTP exchange itself is an input. */
module Http {
  import opened Wrappers

  /** A decoded JSON document, as `response.json()` would return it. */
  datatype Json =
    | JNull
    | JBool(b: bool)
    | JNumber(n: real)
    | JString(s: string)
    | JArray(items: seq<Json>)
    | JObject(members: seq<(string, Json)>)

  /** A received response: its status code, its raw text, and the document
      its text decodes to (`None` when the text is not JSON). */
  datatype Response = Response(status: int, text: string, json: Option<Json>)

  /** What the HTTP library reported: no response at all (a connection-level
      failure) or a response. */
  datatype Transport = NoResponse | Received(response: Response)

  /** A successful call returns the decoded document or the raw text. */
  datatype Payload = JsonPayload(doc: Json) | TextPayload(text: string)

  /** The detail an error carries: the decoded error body or the raw text. */
  datatype Detail = JsonDetail(doc: Json) | TextDetail(text: string)

  datatype ApiError =
    | UnsupportedMethod(verb: string)
    | RequestFailed
    | HttpFailed(status: int, detail: Detail)

  const SupportedMethods: set<string> := {"GET", "POST", "PUT", "DELETE"}

  /** The statuses for which `raise_for_status` raises: client and server
      errors. */
  predicate IsErrorStatus(status: int) {
    400 <= status < 600
  }

  function PayloadOf(r: Response): Payload {
    match r.json
    case Some(doc) => JsonPayload(doc)
    case None => TextPayload(r.text)
  }

  function DetailOf(r: Response): Detail {
    match r.json
    case Some(doc) => JsonDetail(doc)
    case None => TextDetail(r.text)
  }

  /** Dispatch on the verb, `raise_for_status`, and the JSON-or-text choice on both
      the success and the error path. */
  function Classify(verb: string, t: Transport): (r: Result<Payload, ApiError>)
    ensures verb !in SupportedMethods ==> r == Failure(UnsupportedMethod(verb))
    ensures r.Success? <==>
      verb in SupportedMethods && t.Received? && !IsErrorStatus(t.response.status)
    ensures verb in SupportedMethods && t.NoResponse? ==> r == Failure(RequestFailed)
    ensures r.Failure? && r.error.HttpFailed? ==>
      t.Received? && r.error.status == t.response.status && IsErrorStatus(r.error.status)
    ensures verb in SupportedMethods && t.Received? && IsErrorStatus(t.response.status) ==>
      r.Failure? && r.error.HttpFailed? && r.error.status == t.response.status
  {
    if verb !in SupportedMethods then Failure(UnsupportedMethod(verb))
    else match t
      case NoResponse => Failure(RequestFailed)
      case Received(resp) =>
        if IsErrorStatus(resp.status) then Failure(HttpFailed(resp.status, DetailOf(resp)))
        else Success(PayloadOf(resp))
  }

  /** The body a response yields is the same on both paths: the decoded
      document when the text is JSON, otherwise the raw text verbatim. */
  lemma ClassifyCarriesBody(verb: string, resp: Response)
    requires verb in SupportedMethods
    ensures var r := Classify(verb, Received(resp));
      && (r.Success? && resp.json.None? ==> r.value == TextPayload(resp.text))
      && (r.Success? && resp.json.Some? ==> r.value == JsonPayload(resp.json.value))
      && (r.Failure? && resp.json.None? ==> r.error.detail == TextDetail(resp.text))
      && (r.Failure? && resp.json.Some? ==> r.error.detail == JsonDetail(resp.json.value))
  {
  }

  /** Only the status decides between success and error: two responses with
      the same body and different kinds of status are classified apart, and
      the body is never a reason to fail. */
  lemma StatusAloneDecides(verb: string, a: Response, b: Response)
    requires verb in SupportedMethods
    requires IsErrorStatus(a.status) == IsErrorStatus(b.status)
    ensures Classify(verb, Received(a)).Success? == Classify(verb, Received(b)).Success?
  {
  }
}
