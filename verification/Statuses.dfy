/** Error codes of the transport and gRPC status values shared by every module
    (include/grpc_lite/cpp/status.hpp and include/grpcpp/support/status.h). */
module Statuses {

  datatype Option<+T> = None | Some(value: T)

  /** grpc_lite::ErrorCode; `Other` stands for a value outside the enumeration. */
  datatype ErrorCode =
    | Ok | InvalidArgument | InvalidState | OutOfMemory | Unsupported
    | Unavailable | OutOfRange | Closed | WouldBlock | Internal | Other

  type StatusCode = c: int | 0 <= c <= 16

  const OK: StatusCode := 0
  const CANCELLED: StatusCode := 1
  const UNKNOWN: StatusCode := 2
  const INVALID_ARGUMENT: StatusCode := 3
  const RESOURCE_EXHAUSTED: StatusCode := 8
  const FAILED_PRECONDITION: StatusCode := 9
  const OUT_OF_RANGE: StatusCode := 11
  const UNIMPLEMENTED: StatusCode := 12
  const INTERNAL: StatusCode := 13
  const UNAVAILABLE: StatusCode := 14

  /** A status message: the text of an error code, a text chosen by the peer or by an
      application, or one of the fixed texts of the library. */
  datatype Text =
    | Empty
    | ErrorText(e: ErrorCode)
    | Given(text: string)
    | CommandFailed(detail: Text)
    | CancelledBeforeStart
    | MultipleResponses
    | ResponseMissing

  datatype Status = Status(code: StatusCode, message: Text) {
    predicate IsOk() { code == OK }
  }

  const OK_STATUS := Status(OK, Empty)

  /** The status a local transport error is reported as: what its code says of the error. */
  function ErrorStatus(e: ErrorCode): (r: Status)
    ensures r.IsOk() <==> e == Ok
    ensures e != Ok ==> r.message == ErrorText(e)
    ensures r.code == RESOURCE_EXHAUSTED <==> e in {OutOfMemory, WouldBlock}
    ensures r.code == UNAVAILABLE <==> e in {Unavailable, Closed}
    ensures r.code == INVALID_ARGUMENT <==> e == InvalidArgument
    ensures r.code == FAILED_PRECONDITION <==> e == InvalidState
    ensures r.code == UNIMPLEMENTED <==> e == Unsupported
    ensures r.code == OUT_OF_RANGE <==> e == OutOfRange
    ensures r.code == INTERNAL <==> e == Internal
    ensures r.code == UNKNOWN <==> e == Other
  {
    match e
    case Ok => OK_STATUS
    case InvalidArgument => Status(INVALID_ARGUMENT, ErrorText(e))
    case InvalidState => Status(FAILED_PRECONDITION, ErrorText(e))
    case OutOfMemory => Status(RESOURCE_EXHAUSTED, ErrorText(e))
    case Unsupported => Status(UNIMPLEMENTED, ErrorText(e))
    case Unavailable => Status(UNAVAILABLE, ErrorText(e))
    case Closed => Status(UNAVAILABLE, ErrorText(e))
    case OutOfRange => Status(OUT_OF_RANGE, ErrorText(e))
    case WouldBlock => Status(RESOURCE_EXHAUSTED, ErrorText(e))
    case Internal => Status(INTERNAL, ErrorText(e))
    case Other => Status(UNKNOWN, ErrorText(e))
  }

  /** The status the peer sent. A code outside the enumeration never becomes OK. */
  function NativeStatus(code: int, message: Text): (r: Status)
    ensures r.message == message
    ensures r.IsOk() <==> code == 0
    ensures 0 <= code <= 16 ==> r.code == code
    ensures r.code != code ==> r.code == UNKNOWN
  {
    if code < 0 || code > 16 then Status(UNKNOWN, message) else Status(code, message)
  }

  /** What a failed stream command is reported as by RunCommand. */
  function CommandFailure(e: ErrorCode): (r: Status)
    ensures r.IsOk() <==> e == Ok
    ensures r.code == RESOURCE_EXHAUSTED <==> e in {OutOfMemory, WouldBlock, OutOfRange}
    ensures r.code != RESOURCE_EXHAUSTED ==> r == ErrorStatus(e)
  {
    if e == OutOfRange then Status(RESOURCE_EXHAUSTED, ErrorText(e)) else ErrorStatus(e)
  }

  /** The status a server reports when its response could not be sent. */
  function SendErrorStatus(e: ErrorCode): (r: Status)
    ensures !r.IsOk() && r.message == ErrorText(e)
    ensures r.code == RESOURCE_EXHAUSTED <==> e in {WouldBlock, OutOfMemory, OutOfRange}
    ensures r.code == INTERNAL <==> e !in {WouldBlock, OutOfMemory, OutOfRange}
  {
    if e == WouldBlock || e == OutOfMemory || e == OutOfRange
    then Status(RESOURCE_EXHAUSTED, ErrorText(e))
    else Status(INTERNAL, ErrorText(e))
  }
}
