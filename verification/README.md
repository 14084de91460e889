# Piwik PRO MCP server — verified model of the client and tool layer

This project models the core of `piwik_pro_mcp.py`, a Model Context Protocol
server that exposes five tools (`list_websites`, `get_website_details`,
`get_metrics`, `create_annotation`, `get_annotations`) backed by a thin
authenticated client for the Piwik PRO analytics API. The network, the clock
and the environment are inputs, so every piece is a pure function:

- `metrics.dfy` (`Metrics`): the static metric-name table, the filter-map
  that turns requested names into `{"column_id": ...}` entries (as a
  function and as the source's loop), and the query payload with its fixed
  defaults.
- `token_cache.dfy` (`TokenCache`): the `(token, expiry)` cache of
  `_get_auth_token`, stepped by the current time and the outcome of the
  client-credentials exchange; a replay function counts exchanges over a
  sequence of calls.
- `http.dfy` (`Http`): the verb check and response classification of
  `_make_api_call` (error status, JSON-or-text body on both paths).
- `client.dfy` (`Client`): the client operations as the API call each
  issues (endpoint, verb, body), the annotation envelope, and one
  `_make_api_call` step combining the token cache and classification.
- `tools.dfy` (`Tools`): the validation preamble of each tool, the first
  failing check it reports, and a whole invocation.
- `wrappers.dfy` (`Wrappers`): `Option` and `Result`.

Where the source behaves in ways a reader might not expect, the model follows
the source:

- `raise_for_status` raises only for statuses 400–599. A final 1xx/3xx or a
  status of 600 or more is therefore classified as success, not as an
  error.
- The reuse test uses Python truthiness: a cached empty token or an expiry
  of exactly 0 counts as absent and forces an exchange.
- A token response without `access_token` raises a `KeyError` that is not
  wrapped as an authentication failure (`MalformedTokenResponse`). The cache
  is unchanged in that case too.
- The token is obtained before the HTTP verb is checked. An unsupported verb
  may therefore still refresh the cache, and then fails without sending.
- `create_annotation` always checks the visibility. An omitted visibility is
  `"private"` and passes.

## Model

| member | source | states |
|---|---|---|
| Metrics.ResolveColumns | piwik_pro_mcp.py:153-173 | the resolved list is never longer than the request, and every column id in it is a value of the mapping table |
| Metrics.ResolveConcat | piwik_pro_mcp.py:167-173 | resolution distributes over concatenation, so each name contributes its own column (or none) in its original position: order is preserved |
| Metrics.ResolveMembership | piwik_pro_mcp.py:153-173 | a column id is in the result iff some requested name is a table key mapping to it |
| Metrics.ResolveKeepsAllIffKnown | piwik_pro_mcp.py:167-173 | the result has as many entries as the request iff every requested name is known |
| Metrics.ResolveUnknownOnly | piwik_pro_mcp.py:167-173 | unknown names never cause a failure: a request of only unknown names resolves to the empty list |
| Metrics.ResolveVisitsAndBogus | piwik_pro_mcp.py:153-173 | `["visits", "bogus_column"]` resolves to exactly `[{"column_id": "sessions"}]` |
| Metrics.AvgOrderValueNeverResolves | piwik_pro_mcp.py:149-164 | `avg_order_value` is documented but absent from the table, so inserting it anywhere in a request changes nothing |
| Metrics.ResolveColumnsLoop | piwik_pro_mcp.py:166-173 | the append-or-skip loop computes exactly the filter-map of the request |
| Metrics.BuildQuery | piwik_pro_mcp.py:175-185 | the query has format json, column_format id, offset 0, limit 100, sampling 1.0, passes website id and both dates unchanged, and carries the resolved columns |
| TokenCache.GetAuthToken | piwik_pro_mcp.py:47-70 | an exchange happens iff the cached token is not fresh; a fresh token is returned with the state unchanged; a rejected exchange raises the authentication error and a response without `access_token` the malformed-response error, both leaving token and expiry unchanged; a successful one stores the returned token with expiry `now + expires_in` (3600 when absent) |
| TokenCache.EmptyIsConsistent | piwik_pro_mcp.py:43-44 | the initial cache has neither token nor expiry |
| TokenCache.StepPreservesConsistency | piwik_pro_mcp.py:43-70 | token and expiry stay set together across every step |
| TokenCache.RefreshedTokenIsReused | piwik_pro_mcp.py:49-65 | after a successful refresh, a call before the new expiry returns that token without exchanging |
| TokenCache.Replay | piwik_pro_mcp.py:47-70 | over a sequence of calls, a run that performs no exchange ends with the cache it started from |
| TokenCache.ReplayWithinWindow | piwik_pro_mcp.py:49-52 | any number of calls inside a fresh token's window perform no exchange and leave the cache unchanged |
| TokenCache.ExactlyOneExchange | piwik_pro_mcp.py:49-65 | a call needing a token followed by calls inside the new token's lifetime performs exactly one exchange in total |
| TokenCache.ExpiredTokenIsExchanged | piwik_pro_mcp.py:50-53 | a call at or after the expiry always exchanges |
| Http.Classify | piwik_pro_mcp.py:92-121 | an unsupported verb is an error; with a supported verb, no response at all is the wrapped request failure with no status; the call succeeds iff the verb is supported, a response arrived and its status is not an error status; an error status yields an error carrying that status code |
| Http.ClassifyCarriesBody | piwik_pro_mcp.py:104-119 | a JSON body is returned or attached as detail in decoded form, a non-JSON body as the raw text, on both the success and the error path |
| Http.StatusAloneDecides | piwik_pro_mcp.py:102-108 | whether a received response succeeds depends only on its status, never on whether its body is JSON |
| Client.BuildAnnotation | piwik_pro_mcp.py:203-213 | the envelope has type `UserAnnotation`, carries content, website id and visibility unchanged, and takes the given date unless it is absent or empty, in which case it takes today's date |
| Client.AnnotationDateNeverEmpty | piwik_pro_mcp.py:209 | with a non-empty current date the envelope's date is never empty |
| Client.CallFor | piwik_pro_mcp.py:123-222 | each operation's endpoint and verb (GET for the website list, website details and annotation list; POST for the query and annotation creation); the query body is the query built from the request's own arguments and the annotation body the envelope built from them and today's date; no other operation sends a body |
| Client.EndpointRecoversWebsiteId | piwik_pro_mcp.py:127-222 | the website id can be read back from the details and annotation-list endpoints |
| Client.MakeApiCall | piwik_pro_mcp.py:72-121 | the token step runs first and its new cache and exchange flag are the call's; a failed token step is the call's failure and sends nothing; an unsupported verb then fails without sending; otherwise exactly the given call is sent, with the token the cache then holds, and its outcome is the response classification |
| Tools.ValidateListWebsites | piwik_pro_mcp.py:245-259 | succeeds iff the client is initialised, delegating to the website list |
| Tools.ValidateGetWebsiteDetails | piwik_pro_mcp.py:262-277 | succeeds iff initialised and the website id is non-empty; without a client it fails with the initialisation error |
| Tools.ValidateGetMetrics | piwik_pro_mcp.py:303-316 | succeeds iff initialised and website id, both dates and the column list are non-empty; the arguments are delegated unchanged |
| Tools.ValidateCreateAnnotation | piwik_pro_mcp.py:334-345 | succeeds iff initialised, website id and content non-empty, content at most 150 characters and visibility (default private) is private or public |
| Tools.ValidateGetAnnotations | piwik_pro_mcp.py:358-363 | succeeds iff initialised and the website id is non-empty |
| Tools.ValidateReportsFirstViolation | piwik_pro_mcp.py:303-343 | validation succeeds iff no check is violated, and otherwise reports a violated check with no earlier check violated |
| Tools.Invoke | piwik_pro_mcp.py:245-366 | a validation failure returns that error with the cache unchanged, no exchange and no request; otherwise the validated request's API call is the one sent (when a token was obtained), the cache is the token step's, a failed token step is an authentication failure, and otherwise the result is the classification of the response to that call |
| Tools.UninitialisedFailsFirst | piwik_pro_mcp.py:245-366 | without credentials every tool, whatever its arguments, fails with the initialisation error and calls nothing |
| Tools.AnnotationLengthBoundary | piwik_pro_mcp.py:334-343 | content of 150 characters passes; 151 fails with the length error before any call, even with a bad visibility |
| Tools.AnnotationVisibility | piwik_pro_mcp.py:322-345 | visibility `secret` is rejected; an omitted visibility is sent as `private` |
| Tools.UnknownColumnsPassValidation | piwik_pro_mcp.py:312-316 | a non-empty list of unknown names passes validation and the query has no columns |
| Tools.ListWebsitesEndToEnd | piwik_pro_mcp.py:245-256 | with credentials and a token, `list_websites` sends exactly a GET of `/api/apps/v2` without a body, with the cached token, and returns a 200 JSON response as the decoded document |
| Tools.DifferentToolsSendDifferentCalls | piwik_pro_mcp.py:123-222 | two different tools that pass validation, once a token is obtained, never send the same API call |
| Tools.SecondInvocationReusesToken | piwik_pro_mcp.py:49-52 | of two tool invocations in a row, the first refreshes the token and the second, inside its lifetime, reuses it without changing the cache |

## Left out

- Network I/O: the token request and the API requests are inputs (`Exchange`, `Transport`), not performed.
- Server plumbing: the FastMCP server, the stdio transport, the `async` wrappers and the `__main__` loop.
- Configuration and logging: environment and dotenv loading are the `Credentials` input; the domain and base URL only prefix endpoints, so endpoints are modelled as paths; all logging is omitted.
- Serialisation: tools return `json.dumps(result, indent=2)`; the model returns the result before pretty-printing.
- Error message text: the tools re-raise every failure as `Exception(str(e))`; the model keeps the error kind, status code and JSON-or-text detail but not the wording.
- Clock and floats: `datetime.now()` is the integer `now` and the string `today`; `expires_in` is an integer; `sampling` is the constant `1.0`.
- Malformed token fields: an `expires_in` that is `null` or not a number makes the source raise a `TypeError` after the token was stored; the model's `expires_in` is always an integer or absent.
- Query parameters: `_make_api_call` accepts `params`, but no client operation passes them, so they are not modelled. `PUT` and `DELETE` are accepted by the classification but no operation uses them.
- Concurrency: the source never shares the token cache between parallel calls.
