/** The tenant-scoped case routes of the multi-tenant bridge,
      GET  /api/v1/tenants/{tenantId}/cases/{caseId}
      POST /api/v1/tenants/{tenantId}/cases/{caseId}/decision
    Every request passes the router's authorization gate first, then the
    endpoint's case-service dependency (which needs the engine client), and
    only then the handler, which makes one case-service call. The case service
    itself is not modelled: how its call ends is an input. */
module TenantApi {
  import opened Http
  import opened Engine
  import TenantAuth

  /** FastAPI's `APIKeyHeader(name="Authorization", auto_error=False)`: the
      header's value is handed on when it is present and not empty; an absent
      or empty header reaches the gate as None. */
  function ApiKey(header: Option<string>): (k: Option<string>)
    ensures k.Some? <==> header.Some? && header.value != ""
    ensures k.Some? ==> k == header
  {
    if header.Some? && header.value != "" then header else None
  }

  const UnavailableDetail: string := "Temporal client is not available."

  /** The case service, built over the shared engine client. */
  datatype CaseService = CaseService(client: Client)

  /** The `get_case_service` dependency: without an engine client it answers
      503 before any case-service call can be made. */
  function CaseServiceFor(client: Option<Client>): (r: Result<CaseService>)
    ensures client.None? ==> r == Err(503, UnavailableDetail)
    ensures client.Some? ==> r == Ok(CaseService(client.value))
  {
    match client
    case None => Err(503, UnavailableDetail)
    case Some(c) => Ok(CaseService(c))
  }

  /** The 404 detail of the case lookup. */
  function CaseNotFoundDetail(caseId: string): string {
    "Case with ID '" + caseId + "' not found."
  }

  /** The 404 detail of the decision route. */
  function CaseGoneDetail(caseId: string): string {
    "Case with ID '" + caseId + "' not found or has already completed."
  }

  const ServiceErrorPrefix: string := "Temporal service error: "

  /** The handler of the case lookup, given how `get_by_id` ended: the case
      when there is one, 404 when there is none; an exception escapes and the
      server answers a bare 500. */
  function GetCaseById<C>(caseId: string, lookup: Outcome<Option<C>>): (r: Result<C>)
    ensures r.Ok? <==> lookup.Returned? && lookup.value.Some?
    ensures r.Ok? ==> r.value == lookup.value.value
    ensures lookup == Returned(None) ==> r == Err(404, CaseNotFoundDetail(caseId))
    ensures lookup.Threw? ==> r == Forward(Uncaught)
  {
    match lookup
    case Returned(Some(c)) => Ok(c)
    case Returned(None) => Err(404, CaseNotFoundDetail(caseId))
    case Threw(_) => Forward(Uncaught)
  }

  /** The handler of the decision route, given how `submit_decision` ended:
      the service's result is returned unchanged; an RPC error with status
      NOT_FOUND is 404, any other RPC error 500 with the error's message; any
      other exception escapes and the server answers a bare 500. */
  function SubmitTenantDecision<D>(caseId: string, outcome: Outcome<D>): (r: Result<D>)
    ensures r.Ok? <==> outcome.Returned?
    ensures r.Ok? ==> r.value == outcome.value
    ensures r.Err? && r.status == 404 <==> outcome.Threw? && outcome.error == RpcError(NotFound, outcome.error.message)
    ensures r.Err? && r.status == 404 ==> r.detail == CaseGoneDetail(caseId)
    ensures outcome.Threw? && outcome.error.RpcError? && outcome.error.status != NotFound ==>
              r == Err(500, ServiceErrorPrefix + outcome.error.message)
    ensures outcome.Threw? && outcome.error.OtherException? ==> r == Forward(Uncaught)
  {
    match outcome
    case Returned(v) => Ok(v)
    case Threw(RpcError(status, message)) =>
      if IsNotFound(status) then Err(404, CaseGoneDetail(caseId))
      else Err(500, ServiceErrorPrefix + message)
    case Threw(OtherException(_)) => Forward(Uncaught)
  }

  /** A call the routes make into the case service; both carry the tenant. */
  datatype ServiceCall =
    | GetById(caseId: string, tenantId: string)
    | SubmitDecision(caseId: string, decision: string, tenantId: string)
  {
    function Tenant(): string {
      match this
      case GetById(_, t) => t
      case SubmitDecision(_, _, t) => t
    }
  }

  /** What one request did: the case-service calls it made, in order, and its
      reply. */
  datatype Exchange<+T> = Exchange(calls: seq<ServiceCall>, reply: Result<T>)

  /** The gate and the service dependency, in the order FastAPI resolves them:
      the reply of the first that refuses the request, or the service. */
  function Admit(header: Option<string>, tenantId: string, client: Option<Client>): (r: Result<CaseService>)
    ensures r.Ok? <==> ApiKey(header) == Some(TenantAuth.TokenFor(tenantId)) && client.Some?
    ensures r.Err? ==> r.status in {401, 403, 503}
    ensures !TenantAuth.Authorize(ApiKey(header), tenantId).Ok? ==>
              r == Forward(TenantAuth.Authorize(ApiKey(header), tenantId))
  {
    var gate := TenantAuth.Authorize(ApiKey(header), tenantId);
    if gate.Err? then Forward(gate) else CaseServiceFor(client)
  }

  /** GET /api/v1/tenants/{tenantId}/cases/{caseId}, with the Authorization
      header, the engine client and how the lookup ends if it is made. */
  function GetCaseRoute<C>(header: Option<string>, tenantId: string, caseId: string,
                           client: Option<Client>, lookup: Outcome<Option<C>>): (x: Exchange<C>)
    ensures Admit(header, tenantId, client).Err? ==>
              x == Exchange([], Forward(Admit(header, tenantId, client)))
    ensures Admit(header, tenantId, client).Ok? ==>
              x == Exchange([GetById(caseId, tenantId)], GetCaseById(caseId, lookup))
  {
    match Admit(header, tenantId, client)
    case Err(status, detail) => Exchange([], Err(status, detail))
    case Ok(_) => Exchange([GetById(caseId, tenantId)], GetCaseById(caseId, lookup))
  }

  /** POST /api/v1/tenants/{tenantId}/cases/{caseId}/decision with body
      {"decision": decision}. */
  function SubmitDecisionRoute<D>(header: Option<string>, tenantId: string, caseId: string, decision: string,
                                  client: Option<Client>, outcome: Outcome<D>): (x: Exchange<D>)
    ensures Admit(header, tenantId, client).Err? ==>
              x == Exchange([], Forward(Admit(header, tenantId, client)))
    ensures Admit(header, tenantId, client).Ok? ==>
              x == Exchange([SubmitDecision(caseId, decision, tenantId)], SubmitTenantDecision(caseId, outcome))
  {
    match Admit(header, tenantId, client)
    case Err(status, detail) => Exchange([], Err(status, detail))
    case Ok(_) => Exchange([SubmitDecision(caseId, decision, tenantId)], SubmitTenantDecision(caseId, outcome))
  }

  // ---------------------------------------------------------------------------
  // Properties of the routes

  /** A request without credentials is refused with 401 "Authorization header
      is missing" and reaches no case-service call, on either route, whatever
      the tenant, the case, the client or the service would do. */
  lemma MissingHeaderRejected<C, D>(header: Option<string>, tenantId: string, caseId: string, decision: string,
                                    client: Option<Client>, lookup: Outcome<Option<C>>, outcome: Outcome<D>)
    requires header.None? || header == Some("")
    ensures GetCaseRoute(header, tenantId, caseId, client, lookup) == Exchange([], Err(401, TenantAuth.MissingDetail))
    ensures SubmitDecisionRoute(header, tenantId, caseId, decision, client, outcome)
              == Exchange([], Err(401, TenantAuth.MissingDetail))
  {
  }

  /** A tenant's token used on another tenant's path is refused with 403,
      whether or not the case exists, whether or not the engine is there, and
      no case-service call is made. */
  lemma CrossTenantForbidden<C, D>(tokenTenant: string, pathTenant: string, caseId: string, decision: string,
                                   client: Option<Client>, lookup: Outcome<Option<C>>, outcome: Outcome<D>)
    requires tokenTenant != pathTenant
    ensures GetCaseRoute(Some(TenantAuth.TokenFor(tokenTenant)), pathTenant, caseId, client, lookup)
              == Exchange([], Err(403, TenantAuth.TenantDetail))
    ensures SubmitDecisionRoute(Some(TenantAuth.TokenFor(tokenTenant)), pathTenant, caseId, decision, client, outcome)
              == Exchange([], Err(403, TenantAuth.TenantDetail))
  {
  }

  /** An authorized request while the engine client is absent is answered 503
      before any case-service call. */
  lemma NoClientUnavailable<C, D>(tenantId: string, caseId: string, decision: string,
                                  lookup: Outcome<Option<C>>, outcome: Outcome<D>)
    ensures GetCaseRoute(Some(TenantAuth.TokenFor(tenantId)), tenantId, caseId, None, lookup)
              == Exchange([], Err(503, UnavailableDetail))
    ensures SubmitDecisionRoute(Some(TenantAuth.TokenFor(tenantId)), tenantId, caseId, decision, None, outcome)
              == Exchange([], Err(503, UnavailableDetail))
  {
  }

  /** The case lookup answers 200 exactly when the caller holds the path
      tenant's token, the engine is there and the service found the case, and
      then the body is that case: never 200 without a case. */
  lemma GetCaseOkIffFound<C>(header: Option<string>, tenantId: string, caseId: string,
                             client: Option<Client>, lookup: Outcome<Option<C>>)
    ensures GetCaseRoute(header, tenantId, caseId, client, lookup).reply.Ok? <==>
              && header == Some(TenantAuth.TokenFor(tenantId)) && client.Some?
              && lookup.Returned? && lookup.value.Some?
    ensures GetCaseRoute(header, tenantId, caseId, client, lookup).reply.Ok? ==>
              GetCaseRoute(header, tenantId, caseId, client, lookup).reply.value == lookup.value.value
  {
  }

  /** Once admitted, a lookup that finds nothing is 404 and nothing else. */
  lemma GetCaseMissingIs404<C>(tenantId: string, caseId: string, client: Client)
    ensures GetCaseRoute<C>(Some(TenantAuth.TokenFor(tenantId)), tenantId, caseId, Some(client), Returned(None))
              == Exchange([GetById(caseId, tenantId)], Err(404, CaseNotFoundDetail(caseId)))
  {
  }

  /** Once admitted, the decision route's status is determined by how the
      service call ended: 200 with the service's result, 404 for NOT_FOUND,
      500 otherwise. */
  lemma DecisionStatus<D>(tenantId: string, caseId: string, decision: string, client: Client, outcome: Outcome<D>)
    ensures var x := SubmitDecisionRoute(Some(TenantAuth.TokenFor(tenantId)), tenantId, caseId, decision,
                                         Some(client), outcome);
            && x.calls == [SubmitDecision(caseId, decision, tenantId)]
            && (outcome.Returned? ==> x.reply == Ok(outcome.value))
            && (outcome.Threw? ==>
                  && x.reply.Err?
                  && x.reply.status == (if outcome.error == RpcError(NotFound, outcome.error.message) then 404 else 500))
  {
  }

  /** Tenant isolation: every case-service call either route makes is scoped
      to the tenant the caller's token names, so a guessed case id of another
      tenant is never looked up or signalled on the caller's behalf. */
  lemma CallsStayInTenant<C, D>(header: Option<string>, tenantId: string, caseId: string, decision: string,
                                client: Option<Client>, lookup: Outcome<Option<C>>, outcome: Outcome<D>)
    ensures forall call <- GetCaseRoute(header, tenantId, caseId, client, lookup).calls ::
              header == Some(TenantAuth.TokenFor(call.Tenant()))
    ensures forall call <- SubmitDecisionRoute(header, tenantId, caseId, decision, client, outcome).calls ::
              header == Some(TenantAuth.TokenFor(call.Tenant()))
  {
  }

  /** Every refusal carries one of the statuses the routes are documented
      with. */
  lemma RouteStatuses<C, D>(header: Option<string>, tenantId: string, caseId: string, decision: string,
                            client: Option<Client>, lookup: Outcome<Option<C>>, outcome: Outcome<D>)
    ensures GetCaseRoute(header, tenantId, caseId, client, lookup).reply.Err? ==>
              GetCaseRoute(header, tenantId, caseId, client, lookup).reply.status in {401, 403, 404, 500, 503}
    ensures SubmitDecisionRoute(header, tenantId, caseId, decision, client, outcome).reply.Err? ==>
              SubmitDecisionRoute(header, tenantId, caseId, decision, client, outcome).reply.status
                in {401, 403, 404, 500, 503}
  {
  }
}
