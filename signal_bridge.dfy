/** The single-tenant signal bridge: a health report on the engine connection,
    a route that forwards a reviewer's decision to a running workflow as a
    signal, and a route that lists workflow executions up to a limit. The
    engine client is the shared handle; how each engine call ends is an input. */
module SignalBridge {
  import opened Http
  import opened Engine

  // ---------------------------------------------------------------------------
  // GET /health

  /** The health report; the wall-clock timestamp it also carries is left out. */
  datatype Health = Health(status: string, temporalConnected: bool, temporalHost: string, temporalNamespace: string)

  /** The report is healthy exactly when a client is there and not closed; the
      host and namespace are the client's, or "N/A" without one (a closed
      client still reports them). */
  function HealthCheck(client: Option<Client>): (h: Health)
    ensures h.temporalConnected <==> client.Some? && !client.value.isClosed
    ensures h.status == (if h.temporalConnected then "healthy" else "unhealthy")
    ensures client.None? ==> h.temporalHost == "N/A" && h.temporalNamespace == "N/A"
    ensures client.Some? ==> h.temporalHost == client.value.target && h.temporalNamespace == client.value.namespace
  {
    var isConnected := client.Some? && !client.value.isClosed;
    Health(if isConnected then "healthy" else "unhealthy",
           isConnected,
           if client.Some? then client.value.target else "N/A",
           if client.Some? then client.value.namespace else "N/A")
  }

  /** "healthy" is reported for an open client and for nothing else. */
  lemma HealthyIffOpenClient(client: Option<Client>)
    ensures HealthCheck(client).status == "healthy" <==> client.Some? && !client.value.isClosed
  {
  }

  // ---------------------------------------------------------------------------
  // POST /decision

  /** The request body; metadata values are kept as text. */
  datatype Decision = Decision(
    workflowId: string,
    status: string,
    reviewer: string,
    comments: Option<string>,
    metadata: Option<map<string, string>>)

  const SignalName: string := "decision"

  /** A signal sent to a workflow: its id, the signal's name and its one
      argument. */
  datatype Signal = Signal(workflowId: string, name: string, arg: string)

  /** The success body; its timestamp is left out. */
  datatype SignalInfo = SignalInfo(workflowId: string, signalName: string, signalSent: bool)

  /** What one decision request did: the signal it sent, if it reached the
      engine, and its reply. */
  datatype Delivery = Delivery(sent: Option<Signal>, reply: Result<SignalInfo>)

  /** The text of the AttributeError raised by `client.get_workflow_handle`
      when there is no client. */
  const NoHandleText: string := "'NoneType' object has no attribute 'get_workflow_handle'"
  const UnexpectedPrefix: string := "An unexpected error occurred: "
  const RpcFailurePrefix: string := "A Temporal service error occurred: "

  function WorkflowGoneDetail(workflowId: string): string {
    "Workflow with ID '" + workflowId + "' not found or has already completed."
  }

  /** The decision route, given the client and how the signal call ends if it
      is made. The signal carries the decision's status and nothing else. An
      RPC error with status NOT_FOUND is 404, any other RPC error 500 with its
      message, and any other exception (among them the one raised when there
      is no client) 500 with its text. */
  function PostDecision(client: Option<Client>, payload: Decision, signal: Outcome<()>): (r: Delivery)
    ensures client.None? ==> r == Delivery(None, Err(500, UnexpectedPrefix + NoHandleText))
    ensures client.Some? ==> r.sent == Some(Signal(payload.workflowId, SignalName, payload.status))
    ensures r.reply.Ok? <==> client.Some? && signal.Returned?
    ensures r.reply.Ok? ==> r.reply.value == SignalInfo(payload.workflowId, SignalName, true)
    ensures r.reply.Err? && r.reply.status == 404 <==>
              client.Some? && signal.Threw? && signal.error == RpcError(NotFound, signal.error.message)
    ensures r.reply.Err? && r.reply.status == 404 ==> r.reply.detail == WorkflowGoneDetail(payload.workflowId)
    ensures client.Some? && signal.Threw? && signal.error.RpcError? && signal.error.status != NotFound ==>
              r.reply == Err(500, RpcFailurePrefix + signal.error.message)
    ensures client.Some? && signal.Threw? && signal.error.OtherException? ==>
              r.reply == Err(500, UnexpectedPrefix + signal.error.message)
  {
    match client
    case None => Delivery(None, Err(500, UnexpectedPrefix + NoHandleText))
    case Some(_) =>
      var sent := Some(Signal(payload.workflowId, SignalName, payload.status));
      match signal
      case Returned(_) => Delivery(sent, Ok(SignalInfo(payload.workflowId, SignalName, true)))
      case Threw(RpcError(status, message)) =>
        if IsNotFound(status) then Delivery(sent, Err(404, WorkflowGoneDetail(payload.workflowId)))
        else Delivery(sent, Err(500, RpcFailurePrefix + message))
      case Threw(OtherException(message)) => Delivery(sent, Err(500, UnexpectedPrefix + message))
  }

  /** The reviewer, the comments and the metadata are not forwarded: two
      decisions with the same workflow id and status are delivered alike. */
  lemma ReviewerNotForwarded(client: Option<Client>, d1: Decision, d2: Decision, signal: Outcome<()>)
    requires d1.workflowId == d2.workflowId && d1.status == d2.status
    ensures PostDecision(client, d1, signal) == PostDecision(client, d2, signal)
  {
  }

  /** Every failure of the decision route is 404 or 500. */
  lemma DecisionErrorStatuses(client: Option<Client>, payload: Decision, signal: Outcome<()>)
    ensures PostDecision(client, payload, signal).reply.Err? ==>
              PostDecision(client, payload, signal).reply.status in {404, 500}
  {
  }

  // ---------------------------------------------------------------------------
  // GET /workflows

  /** The execution statuses of the engine, by their enum names. */
  datatype ExecutionStatus = Running | Completed | Failed | Canceled | Terminated | ContinuedAsNew | TimedOut
  {
    function Name(): string {
      match this
      case Running => "RUNNING"
      case Completed => "COMPLETED"
      case Failed => "FAILED"
      case Canceled => "CANCELED"
      case Terminated => "TERMINATED"
      case ContinuedAsNew => "CONTINUED_AS_NEW"
      case TimedOut => "TIMED_OUT"
    }
  }

  /** One execution as the engine's listing reports it; its status and times
      may be missing. Times are kept as their serialized text. */
  datatype WorkflowExecution = WorkflowExecution(
    id: string,
    runId: string,
    workflowType: string,
    status: Option<ExecutionStatus>,
    startTime: Option<string>,
    closeTime: Option<string>)

  /** One step of iterating the engine's listing: the next execution, or the
      exception the iteration raises there. */
  datatype Fetched = Entry(execution: WorkflowExecution) | Raise(message: string)

  /** One row of the reply. */
  datatype Row = Row(
    workflowId: string,
    runId: string,
    workflowType: string,
    status: string,
    startTime: Option<string>,
    closeTime: Option<string>)

  const MaxLimit: int := 1000

  /** Stand-in for the request-validation reply to a limit out of range. */
  const LimitDetail: string := "limit must be between 1 and 1000"
  const ListFailedPrefix: string := "Failed to list workflows: "
  /** The text of the AttributeError raised by `client.list_workflows` when
      there is no client. */
  const NoListingText: string := "'NoneType' object has no attribute 'list_workflows'"
  /** The text of the AttributeError raised by `workflow.status.name` when an
      execution has no status. */
  const NoStatusText: string := "'NoneType' object has no attribute 'name'"

  /** The text of the exception that turning a fetched step into a row raises,
      if any. */
  function Failure(f: Fetched): (o: Option<string>)
    ensures o.None? <==> f.Entry? && f.execution.status.Some?
  {
    match f
    case Raise(message) => Some(message)
    case Entry(x) => if x.status.None? then Some(NoStatusText) else None
  }

  /** The row for an execution, field by field; the status by its name. */
  function RowOf(x: WorkflowExecution): (row: Row)
    requires x.status.Some?
    ensures row.workflowId == x.id && row.runId == x.runId && row.workflowType == x.workflowType
    ensures row.status == x.status.value.Name()
    ensures row.startTime == x.startTime && row.closeTime == x.closeTime
  {
    Row(x.id, x.runId, x.workflowType, x.status.value.Name(), x.startTime, x.closeTime)
  }

  /** Nothing of an execution is lost in its row (distinct statuses have
      distinct names): executions with the same row are the same execution. */
  lemma RowOfInjective(x: WorkflowExecution, y: WorkflowExecution)
    requires x.status.Some? && y.status.Some?
    ensures RowOf(x) == RowOf(y) ==> x == y
  {
  }

  function Min(a: int, b: int): int {
    if a < b then a else b
  }

  /** The listing route over the steps of the engine's listing: a limit outside
      [1, 1000] is refused before the handler runs; otherwise the steps are
      taken one by one until `limit` rows are collected or the listing ends,
      and the rows of the first min(limit, n) executions are returned in
      order. An exception on the way (no client, a failing step, an execution
      without a status) is 500 with its text, and it is the first one that
      counts. Steps after the limit-th are never taken. */
  method ListWorkflows(client: Option<Client>, limit: int, listing: seq<Fetched>) returns (r: Result<seq<Row>>)
    ensures !(1 <= limit <= MaxLimit) ==> r == Err(422, LimitDetail)
    ensures 1 <= limit <= MaxLimit && client.None? ==> r == Err(500, ListFailedPrefix + NoListingText)
    ensures r.Ok? <==> && 1 <= limit <= MaxLimit && client.Some?
                       && forall q :: 0 <= q < Min(limit, |listing|) ==> Failure(listing[q]).None?
    ensures r.Ok? ==> && |r.value| == Min(limit, |listing|)
                      && forall q :: 0 <= q < |r.value| ==> r.value[q] == RowOf(listing[q].execution)
    ensures r.Err? && 1 <= limit <= MaxLimit && client.Some? ==>
              exists q :: && 0 <= q < Min(limit, |listing|) && Failure(listing[q]).Some?
                          && (forall q' :: 0 <= q' < q ==> Failure(listing[q']).None?)
                          && r == Err(500, ListFailedPrefix + Failure(listing[q]).value)
  {
    if !(1 <= limit <= MaxLimit) {
      return Err(422, LimitDetail);
    }
    if client.None? {
      return Err(500, ListFailedPrefix + NoListingText);
    }
    var workflows: seq<Row> := [];
    var i := 0;
    while i < |listing|
      invariant i <= |listing| && i < limit
      invariant |workflows| == i
      invariant forall q :: 0 <= q < i ==> Failure(listing[q]).None?
      invariant forall q :: 0 <= q < i ==> workflows[q] == RowOf(listing[q].execution)
    {
      var failure := Failure(listing[i]);
      if failure.Some? {
        return Err(500, ListFailedPrefix + failure.value);
      }
      workflows := workflows + [RowOf(listing[i].execution)];
      i := i + 1;
      if |workflows| >= limit {
        break;
      }
    }
    return Ok(workflows);
  }
}
