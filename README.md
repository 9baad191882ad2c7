# TraceRail task bridge — a Dafny model of its decision logic

The task bridge is a FastAPI service in front of a Temporal workflow engine.
It ships two applications:

- `src/app/bridge.py` is the multi-tenant bridge:
  - a bearer-token gate that scopes every `/api/v1/tenants/{tenantId}/…` route to one tenant;
  - a case lookup route and a decision route over a case service;
  - a provider-state endpoint for contract verification, which recognises a free-text descriptor with a regular expression and (re)starts a fixture workflow.
- `app/bridge.py` is the older single-tenant bridge:
  - a health report;
  - a route that signals a decision to a workflow;
  - a route that lists workflow executions up to a limit.

Nearly all of both files is I/O plumbing. This project models their decision logic:

- which requests are refused, with which status and detail;
- which engine or case-service calls a request makes, and with which arguments;
- how each failure of such a call becomes an HTTP reply;
- how the descriptor is parsed;
- how the listing is cut off.

The engine and the case service are not modelled. How each of their calls ends (returns a value, raises an RPC error with a gRPC status, raises another exception) is an input of type `Engine.Outcome`. The model returns what the request asked of them together with its reply.

Modules:

- `Http`: an optional value, and a reply that is a body or an HTTP error.
- `Engine`: the client handle (present or absent, open or closed), the gRPC status codes and the RPC error guard.
- `TenantAuth`: the authorization gate.
- `TenantApi`: the tenant-scoped case routes.
- `ProviderState`: the regular-expression search and the provider-state endpoint.
- `SignalBridge`: the health report, the decision signal and the bounded listing.

Conventions:

- An exception that escapes a handler in `src/app/bridge.py` (anything but an `HTTPException`) is answered by the server with a bare 500 "Internal Server Error" (`Http.Uncaught`).
- In `app/bridge.py`, `post_decision` and `list_workflows` catch every exception raised inside their `try` blocks (app/bridge.py:126-142, 155-172). `health_check` raises nothing in this model.
- The gate runs before the case-service dependency, because FastAPI resolves router dependencies before endpoint dependencies.

## Model

| member | source | states |
|---|---|---|
| Engine.IsNotFound | src/app/bridge.py:200 | the guard `e.status and e.status.name == 'NOT_FOUND'` holds for the NOT_FOUND code and no other; OK (0) is falsy and fails it |
| TenantAuth.TokenFor | src/app/bridge.py:131-138 | the header of a tenant starts with "Bearer test-token-for-" and the text after the prefix is the tenant id |
| TenantAuth.TokenSuffix | src/app/bridge.py:138-139 | for a prefixed header, the suffix equals a tenant id exactly when the header is that tenant's token |
| TenantAuth.Authorize | src/app/bridge.py:118-143 | missing header gives 401 "Authorization header is missing"; wrong prefix gives 401 "Invalid authorization scheme."; success exactly for the path tenant's token, returning the path tenant; 403 exactly when the header is present and prefixed but names another tenant; no other status |
| TenantAuth.OwnTokenAccepted | src/app/bridge.py:138-143 | round trip: the token built for a tenant is accepted for that tenant and yields it |
| TenantAuth.OtherTenantForbidden | src/app/bridge.py:139-142 | a tenant's token on another tenant's path is refused with 403 |
| TenantAuth.UnauthenticatedIgnoresPath | src/app/bridge.py:126-133 | missing or wrongly prefixed credentials are refused with 401, identically for every path tenant |
| TenantAuth.AcmeExample | src/app/bridge.py:131-143 | "Bearer test-token-for-acme" opens acme, is 403 on globex; a "Basic" header is 401 |
| TenantApi.ApiKey | src/app/bridge.py:116-119 | the header scheme hands an absent or empty Authorization header to the gate as None, any other value unchanged |
| TenantApi.CaseServiceFor | src/app/bridge.py:147-152 | no engine client gives 503 "Temporal client is not available."; otherwise a service over that client |
| TenantApi.GetCaseById | src/app/bridge.py:172-182 | 200 exactly when the service returned a case, with that case as body; no case gives 404 "Case with ID '<id>' not found."; a raised exception gives a bare 500 |
| TenantApi.SubmitTenantDecision | src/app/bridge.py:184-207 | the service's result is returned unchanged exactly when the call returned; 404 exactly for an RPC error with NOT_FOUND; any other RPC error gives 500 "Temporal service error: <message>"; any other exception gives a bare 500 |
| TenantApi.Admit | src/app/bridge.py:166-176 | a request gets past the gate and the service dependency exactly when it carries the path tenant's token and a client exists; a gate refusal is passed through unchanged; refusals are 401, 403 or 503 |
| TenantApi.GetCaseRoute | src/app/bridge.py:172-182 | a refused request makes no service call and carries the refusal; an admitted one makes exactly one lookup for (caseId, tenantId) and answers as GetCaseById |
| TenantApi.SubmitDecisionRoute | src/app/bridge.py:184-207 | a refused request makes no service call; an admitted one makes exactly one submit call with the body's decision and the tenant, answered as SubmitTenantDecision |
| TenantApi.MissingHeaderRejected | src/app/bridge.py:126-129 | on both routes, an absent or empty header gives 401 "Authorization header is missing" with no service call, whatever else holds |
| TenantApi.CrossTenantForbidden | src/app/bridge.py:139-142 | on both routes, another tenant's token gives 403 with no service call, whether or not the case exists or the engine is there |
| TenantApi.NoClientUnavailable | src/app/bridge.py:149-151 | on both routes, an authorized request without an engine client gives 503 with no service call |
| TenantApi.GetCaseOkIffFound | src/app/bridge.py:179-182 | the lookup route answers 200 exactly when the token is the path tenant's, the client exists and the service found the case, and then the body is that case |
| TenantApi.GetCaseMissingIs404 | src/app/bridge.py:179-182 | an admitted lookup that finds nothing makes one lookup and answers 404 |
| TenantApi.DecisionStatus | src/app/bridge.py:192-207 | an admitted decision makes one submit call; its status is 200 with the service result, 404 for NOT_FOUND, or 500 |
| TenantApi.CallsStayInTenant | src/app/bridge.py:166-197 | every service call either route makes names the tenant whose token the caller presented |
| TenantApi.RouteStatuses | src/app/bridge.py:118-207 | the routes' refusals are 401, 403, 404, 500 or 503 |
| ProviderState.StatePatternWellFormed | src/app/bridge.py:243-245 | the handler's pattern meets what the matcher relies on: the middles start outside `[\w-]` and its two alternatives differ at their second character |
| ProviderState.RunLength | src/app/bridge.py:244 | the greedy `[\w-]+` run starting at a position lies within the text |
| ProviderState.RunFacts | src/app/bridge.py:244 | a greedy `[\w-]+` run covers only class characters and stops at the end or at a character outside the class |
| ProviderState.AfterMiddle | src/app/bridge.py:244 | the alternation of "exists" and "is ready for a decision", with the literal around it, is found exactly when one branch is present, and it ends after that branch |
| ProviderState.MatchAt | src/app/bridge.py:244 | one attempt of the pattern at a position: it reports groups only where the lead occurs, and both groups are non-empty |
| ProviderState.MatchAtSound | src/app/bridge.py:243-246 | what the matcher reports at a position is a match of the pattern there |
| ProviderState.MatchAtComplete | src/app/bridge.py:243-246 | every match of the pattern at a position is what the matcher reports there |
| ProviderState.MatchUnique | src/app/bridge.py:243-246 | at a position the pattern matches with at most one pair of groups |
| ProviderState.Search | src/app/bridge.py:246 | `re.search` from a position: the position it reports is the first at or after the start where the attempt succeeds; when it reports none, every attempt fails |
| ProviderState.Groups | src/app/bridge.py:246-252 | `match.groups()`: nothing exactly when the pattern matches nowhere in the descriptor; otherwise the groups of a leftmost match |
| ProviderState.SearchFinds | src/app/bridge.py:246 | the search stops at the first match at or after its start, and the attempt there reports that match's groups |
| ProviderState.SearchSound | src/app/bridge.py:246 | where the search stops there is a match with the reported groups, and no match starts earlier |
| ProviderState.SearchNone | src/app/bridge.py:246-248 | the search finds nothing exactly when the pattern matches nowhere |
| ProviderState.GroupsAreLeftmostMatch | src/app/bridge.py:243-252 | `match.groups()` is (c, t) exactly when the leftmost match has groups (c, t) |
| ProviderState.GroupsAreIds | src/app/bridge.py:244-252 | both reported ids are non-empty runs of `[\w-]` |
| ProviderState.RoundTrip | src/app/bridge.py:243-252 | for any well-formed pattern, text reading lead, case id, either middle and tenant id (after a prefix without the lead's first character) is found where the lead starts and gives back the two ids |
| ProviderState.DescriptorRoundTrip | src/app/bridge.py:243-252 | "case with ID <c> exists for tenant with ID <t>", or the "is ready for a decision" phrasing, gives back (c, t) |
| ProviderState.OccurrenceFound | src/app/bridge.py:243-248 | wherever the text reads lead, id, middle, id, the search finds a match |
| ProviderState.OccurrenceRecognised | src/app/bridge.py:243-248 | a descriptor containing the pattern anywhere is recognised |
| ProviderState.PactStateExample | src/app/bridge.py:243-252 | "case with ID ER-2024-08-124 exists for tenant with ID acme" gives ("ER-2024-08-124", "acme") |
| ProviderState.FixtureStart | src/app/bridge.py:253-265 | the fixture workflow is started under the case id, on "pact-verification-task-queue", with policy TerminateIfRunning |
| ProviderState.HandleProviderState | src/app/bridge.py:234-269 | no client gives 503 and starts nothing; no match gives {"result": "State not found"} and starts nothing; a workflow is started exactly when a client exists and the descriptor matches, with the case id from the match; {"result": "ok"} exactly when it started and the start returned; a failed start gives 500; no other status |
| ProviderState.TenantGroupUnused | src/app/bridge.py:252-265 | the tenant id parsed from the descriptor does not influence the handler |
| ProviderState.PactReadyStateExample | src/app/bridge.py:243-266 | "a case with ID ER-2024-08-124 is ready for a decision for tenant with ID acme" starts the fixture for ER-2024-08-124 and answers ok |
| ProviderState.UnknownStateExample | src/app/bridge.py:246-250 | "a user exists" answers "State not found" and starts nothing |
| SignalBridge.HealthCheck | app/bridge.py:103-116 | connected exactly when the client is present and not closed; "healthy" exactly when connected, else "unhealthy"; host and namespace from the client, or "N/A" without one |
| SignalBridge.HealthyIffOpenClient | app/bridge.py:108-111 | the status is "healthy" exactly for an open client |
| SignalBridge.PostDecision | app/bridge.py:119-142 | with a client, the signal "decision" carrying the decision's status goes to the payload's workflow id; success exactly when the signal returned, echoing the workflow id with signal_sent true; 404 exactly for NOT_FOUND; other RPC errors 500 "A Temporal service error occurred: …"; other exceptions 500 "An unexpected error occurred: …"; no client gives the AttributeError's 500 and sends nothing |
| SignalBridge.ReviewerNotForwarded | app/bridge.py:125-133 | reviewer, comments and metadata do not influence what is sent or answered |
| SignalBridge.DecisionErrorStatuses | app/bridge.py:134-142 | every failure of the decision route is 404 or 500 |
| SignalBridge.Failure | app/bridge.py:157-163 | turning a listing step into a row fails exactly for a raised step or an execution without a status |
| SignalBridge.RowOf | app/bridge.py:158-167 | each row copies the execution's id, run id, type, start and close times, and gives its status by the enum name |
| SignalBridge.RowOfInjective | app/bridge.py:158-167 | no information is lost in a row: executions with the same row are the same execution |
| SignalBridge.ListWorkflows | app/bridge.py:145-172 | a limit outside [1, 1000] is refused with 422; no client gives 500 "Failed to list workflows: …"; success exactly when the first min(limit, n) steps convert, with exactly those rows in order, field by field; otherwise 500 with the text of the first failing step among them |

## Left out

- The `lifespan` functions (connecting, closing, environment variables, `TESTING_MODE`): the client is an input, present or absent, open or closed.
- The case service, the `Case` model and `FlexibleCaseWorkflow` are not part of this model. Their calls are inputs (`Engine.Outcome`). The case and decision result types are type parameters.
- The root HTML pages, CORS, Prometheus and OpenTelemetry instrumentation, and logging carry no decision logic.
- The `timestamp` fields of the health report and of the signal reply are wall-clock values.
- Request-body validation by Pydantic (the 422 replies for malformed bodies) is framework behaviour.
- SignalBridge.ListWorkflows: the 422 reply for a limit out of range carries FastAPI's validation error list, not the stand-in detail the model uses.
- SignalBridge.ListWorkflows: the `query` string and the default limit of 50 are not modelled. The query is interpreted by the engine, whose answer is the input listing. The limit is taken as given.
- ProviderState: `\w` is taken to be ASCII letters, digits and `_`; Python's Unicode word characters are not modelled.
- ProviderState.HandleProviderState: the request's `consumer` field is not used by the handler and is not modelled.
- `app.state.temporal_client` being unset (rather than None) is not modelled. The lifespan either sets it or aborts startup. If it were unset, every handler that reads it would raise an uncaught AttributeError and get a bare 500. Requests refused earlier by the gate or by query validation never reach that read.
- Concurrency between requests is not modelled. Each request is a pure function of its inputs.

Behaviour of the code a reader might not expect:

- The 500 details include the engine's error message ("Temporal service error: …" and the `app/bridge.py` variants).
- A lookup of a missing case gives 404 only when the service returns `None`. An exception raised by the service escapes and gives 500.
- Malformed requests are answered with FastAPI's 422.
- The health report carries host, namespace and a timestamp besides the status and the connection flag.
