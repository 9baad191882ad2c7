/** The Temporal workflow engine as the bridge sees it: a connection handle that is
    present or absent, and the outcome of each call made through it. The engine's
    own behaviour is not modelled; every call's outcome is an input. */
module Engine {

  /** The shared client handle: the target it connected to, its namespace and
      whether it has been closed. */
  datatype Client = Client(target: string, namespace: string, isClosed: bool)

  /** The gRPC status codes an RPCError carries, in their numeric order; OK is 0. */
  datatype RpcStatus =
    | OK | Cancelled | Unknown | InvalidArgument | DeadlineExceeded | NotFound
    | AlreadyExists | PermissionDenied | ResourceExhausted | FailedPrecondition
    | Aborted | OutOfRange | Unimplemented | Internal | Unavailable | DataLoss
    | Unauthenticated
  {
    /** The enum member's name, as `status.name` spells it. */
    function Name(): string {
      match this
      case OK => "OK"
      case Cancelled => "CANCELLED"
      case Unknown => "UNKNOWN"
      case InvalidArgument => "INVALID_ARGUMENT"
      case DeadlineExceeded => "DEADLINE_EXCEEDED"
      case NotFound => "NOT_FOUND"
      case AlreadyExists => "ALREADY_EXISTS"
      case PermissionDenied => "PERMISSION_DENIED"
      case ResourceExhausted => "RESOURCE_EXHAUSTED"
      case FailedPrecondition => "FAILED_PRECONDITION"
      case Aborted => "ABORTED"
      case OutOfRange => "OUT_OF_RANGE"
      case Unimplemented => "UNIMPLEMENTED"
      case Internal => "INTERNAL"
      case Unavailable => "UNAVAILABLE"
      case DataLoss => "DATA_LOSS"
      case Unauthenticated => "UNAUTHENTICATED"
    }

    /** Truth value of the status in a Python condition: the code is an integer
        enum, so only OK (0) is false. */
    predicate Truthy() {
      this != OK
    }
  }

  /** The guard `e.status and e.status.name == 'NOT_FOUND'` used by every handler
      that maps an RPCError: it holds for the NOT_FOUND code and for no other. */
  function IsNotFound(s: RpcStatus): (b: bool)
    ensures b <==> s == NotFound
  {
    s.Truthy() && s.Name() == "NOT_FOUND"
  }

  /** An exception raised by a call into the engine or the case service. */
  datatype Raised =
    | RpcError(status: RpcStatus, message: string)
    | OtherException(message: string)

  /** How one call into the engine or the case service ended. */
  datatype Outcome<+T> = Returned(value: T) | Threw(error: Raised)
}
