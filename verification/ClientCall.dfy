/** The client call: the fields of BlockingCallState and of ClientContext, and what each
    critical section does to them (include/grpcpp/impl/blocking_call.h,
    include/grpcpp/client_context.h). */
module ClientCall {
  import opened Statuses

  /** Fields of one BlockingCallState. `generation` is unbounded. */
  datatype Fields = Fields(
    streamSet: bool, cancelRequested: bool, hasMessage: bool, message: string,
    terminal: bool, status: Status, generation: nat)

  const NEW_FIELDS := Fields(false, false, false, "", false, OK_STATUS, 0)

  /** Fields of the ClientContext; `target` says that the call is its cancellation target. */
  datatype Context = Context(cancelled: bool, terminal: bool, target: bool)

  const NEW_CONTEXT := Context(false, false, false)

  function Buffered(f: Fields): seq<string> {
    if f.hasMessage then [f.message] else []
  }

  /** The first terminal status wins. */
  function SetTerminal(f: Fields, status: Status): Fields {
    if f.terminal then f else f.(terminal := true, status := status)
  }

  function PutMessage(f: Fields, payload: string): Fields {
    f.(hasMessage := true, message := payload)
  }

  function BumpWritable(f: Fields): Fields {
    f.(generation := f.generation + 1)
  }

  function MarkCancelled(f: Fields): Fields {
    if f.terminal then f else f.(cancelRequested := true)
  }

  function TakeMessage(f: Fields): Fields {
    f.(hasMessage := false, message := f.message)
  }

  function AttachStream(f: Fields): Fields { f.(streamSet := true) }

  function DetachStream(f: Fields): Fields { f.(streamSet := false) }

  function MarkTryCancel(c: Context): Context {
    if c.terminal then c else c.(cancelled := true)
  }

  predicate MayRegister(c: Context) { !c.cancelled && !c.terminal }

  function Register(c: Context): Context {
    if MayRegister(c) then c.(target := true) else c
  }

  function CompleteCall(c: Context): Context {
    c.(target := false, terminal := true)
  }
}
