/** One synchronous server call: the dispatching thread, the reactor that serialises the
    call's callbacks, and any number of executor threads that run the submitted task
    (include/grpc_lite/cpp/sync_service.hpp, include/grpcpp/support/sync_stream.h). Every
    section under the call's mutex and every operation on the gate is one step. */
module ServerDispatch {
  import opened Statuses
  import opened TypedCall

  type Tid = nat

  // ------------------------------------------------------------- the admission gate

  datatype Gate = Queued | Starting | Running | Stopped

  function BeginStart(g: Gate): Gate { if g == Queued then Starting else g }

  function CommitStart(g: Gate): Gate { if g == Starting then Running else g }

  function Stop(g: Gate): Gate { if g == Queued || g == Starting then Stopped else g }

  // -------------------------------------------------------------------------- state

  /** A Write of the handler and what it returned. */
  datatype Written = Written(payload: string, accepted: bool)

  function Accepted(ws: seq<Written>): seq<string> {
    if ws == [] then []
    else
      Accepted(ws[..|ws| - 1]) + (if ws[|ws| - 1].accepted then [ws[|ws| - 1].payload] else [])
  }

  /** The dispatching thread. */
  datatype DispatchPc =
    | Admit
    | Refuse(status: Status)
    | SetCancelObserver
    | StopForCancel
    | SetTerminalObserver
    | StopForTerminal
    | Submit
    | Submitting
    | StopRejected
    | RefuseRejected
    | Dispatched

  datatype ReactPc =
    | Idle
    | CancelRun(stop: bool)
    | TerminalRun(stop: bool)
    | WritableRun(found: bool)
    | Reject(status: Status)

  /** Inside a Write; `im` is State::initial_metadata_sent. */
  datatype WritePc =
    | Write(m: string, im: bool)
    | WriteMetadata(m: string)
    | WriteSend(m: string, im: bool)
    | WriteError(m: string, im: bool, e: ErrorCode)
    | WriteWait(m: string, im: bool)

  /** An executor thread in State::Run. */
  datatype WorkPc =
    | Worker
    | Begin
    | Commit
    | Handler(im: bool)
    | HandlerReject(im: bool, status: Status)
    | Writing(p: WritePc)
    | Check(status: Status, response: string, im: bool)
    | SendMetadata(status: Status, response: string, im: bool)
    | Final(status: Status, response: string)
    | Respond(response: string)
    | Close(status: Status)
    | WorkerDone

  datatype Pc = Dispatching(d: DispatchPc) | Reacting(r: ReactPc) | Working(w: WorkPc)

  /** The gate and what led to it. `stage` is how far the dispatching thread has come (3: past
      SetOnCancel, 5: past SetOnTerminal); `begun` is the thread that passed BeginStart;
      `pendingStop` says that an observer has been taken and not yet run. */
  datatype Control = Control(
    gate: Gate, stage: nat, submitted: bool, rejected: bool, anyRun: bool,
    begun: Option<Tid>, starts: nat,
    pendingStop: bool, cancelReturned: bool, terminalReturned: bool)

  /** The transport: it owes on_writable, is delivering it, has closed the call. A closed call
      gets no further on_writable and is owed on_terminal instead. */
  datatype Net = Net(owesWritable: bool, inFlight: bool, closing: bool)

  /** `failed` records an error met after the handler, `writes` what the handler
      wrote (a single response counts as one write). */
  datatype Shared = Shared(
    streaming: bool, dispatcher: Tid, reactor: Tid,
    call: Call, trace: Trace, ctl: Control, net: Net, failed: bool, writes: seq<Written>)

  datatype State = State(sh: Shared, threads: map<Tid, Pc>)

  datatype Choice =
    | Go
    | Verdict(yes: bool)
    | Answers(a: ErrorCode, b: ErrorCode)
    | Serialized(ok: bool, a: ErrorCode, b: ErrorCode)
    | Copied(e: ErrorCode, serialized: bool)
    | Admitted(status: Status)
    | StartWrite(m: string)
    | ResumeFailed(status: Status)
    | Returned(status: Status, response: string)
    | FireCancel
    | FireTerminal
    | FireWritable(found: bool)    // whether the service could retain the call
    | CloseNet
    | RejectRequest(status: Status)

  // --------------------------------------------------------------------- primitives

  function Shut(n: Net): Net { n.(closing := true, owesWritable := false) }

  function Took(sh: Shared, r: Reply): Shared {
    sh.(call := r.call, trace := r.trace, net := if r.call.finishSubmitted then Shut(sh.net) else sh.net)
  }

  function TookFinish(sh: Shared, status: Status, a: ErrorCode, b: ErrorCode): Shared {
    Took(sh, Finish(sh.call, sh.trace, status.code, a, b))
  }

  function TookSend(sh: Shared, m: string, a: ErrorCode, b: ErrorCode): Shared {
    var blocked := Blocked(sh.call, sh.trace, a, b) && !sh.net.closing;
    Took(sh.(net := sh.net.(owesWritable := sh.net.owesWritable || blocked)), Send(sh.call, sh.trace, m, a, b))
  }

  function Wrote(sh: Shared, m: string, ok: bool): Shared {
    sh.(writes := sh.writes + [Written(m, ok)])
  }

  // ------------------------------------------------------------ the dispatching thread

  predicate CanDispatch(sh: Shared, pc: DispatchPc, c: Choice) {
    match pc
    case Admit => c.Admitted?
    case Refuse(_) => c.Answers?
    case Submitting => c.Verdict? && (!c.yes ==> !sh.ctl.anyRun)
    case RefuseRejected => c.Answers?
    case Dispatched => false
    case _ => c.Go?
  }

  function DoDispatch(sh: Shared, pc: DispatchPc, c: Choice): (Shared, DispatchPc)
    requires CanDispatch(sh, pc, c)
  {
    match pc
    case Admit =>
      if c.status.IsOk() then (sh.(ctl := sh.ctl.(stage := 1)), SetCancelObserver) else (sh, Refuse(c.status))
    case Refuse(status) => (TookFinish(sh, status, c.a, c.b), Dispatched)
    case SetCancelObserver =>
      var s1 := sh.(call := SetOnCancel(sh.call));
      if sh.call.cancelled then (s1.(ctl := sh.ctl.(stage := 2)), StopForCancel) 
      else (s1.(ctl := sh.ctl.(stage := 3)), SetTerminalObserver)
    case StopForCancel => (sh.(ctl := sh.ctl.(gate := Stop(sh.ctl.gate), stage := 3)), SetTerminalObserver)
    case SetTerminalObserver =>
      var s1 := sh.(call := SetOnTerminal(sh.call));
      if sh.call.terminal then (s1.(ctl := sh.ctl.(stage := 4)), StopForTerminal) 
      else (s1.(ctl := sh.ctl.(stage := 5)), Submit)
    case StopForTerminal => (sh.(ctl := sh.ctl.(gate := Stop(sh.ctl.gate), stage := 5)), Submit)
    case Submit => (sh.(ctl := sh.ctl.(submitted := true)), Submitting)
    case Submitting =>
      if c.yes then (sh, Dispatched) else (sh.(ctl := sh.ctl.(rejected := true)), StopRejected)
    case StopRejected => (sh.(ctl := sh.ctl.(gate := Stop(sh.ctl.gate))), RefuseRejected)
    case RefuseRejected => (TookFinish(sh, Status(RESOURCE_EXHAUSTED, Empty), c.a, c.b), Dispatched)
  }

  // --------------------------------------------------------------------- the reactor

  /** No callback follows on_terminal; on_cancel and on_terminal follow the end of the call. */
  predicate CanReact(sh: Shared, pc: ReactPc, c: Choice) {
    match pc
    case Idle =>
      && !sh.call.terminal
      && (match c
          case FireCancel => sh.net.closing
          case FireTerminal => sh.net.closing
          case FireWritable(_) => sh.net.owesWritable
          case CloseNet => true
          case RejectRequest(status) => !status.IsOk()
          case _ => false)
    case Reject(_) => c.Answers?
    case _ => c.Go?
  }

  /** The observer, if it was taken, runs Stop. */
  function Observe(k: Control, stop: bool): Control {
    k.(gate := if stop then Stop(k.gate) else k.gate, pendingStop := false)
  }

  function DoReact(sh: Shared, pc: ReactPc, c: Choice): (Shared, ReactPc)
    requires CanReact(sh, pc, c)
  {
    match pc
    case Idle =>
      (match c
       case FireCancel =>
         (sh.(call := OnCancel(sh.call), ctl := sh.ctl.(pendingStop := sh.call.watchCancel)),
          CancelRun(sh.call.watchCancel))
       case FireTerminal =>
         (sh.(call := OnTerminal(sh.call), ctl := sh.ctl.(pendingStop := sh.call.watchTerminal)),
          TerminalRun(sh.call.watchTerminal))
       case FireWritable(found) =>
         (sh.(net := sh.net.(owesWritable := false, inFlight := found)), WritableRun(found))
       case CloseNet => (sh.(net := Shut(sh.net)), Idle)
       case RejectRequest(status) => (sh, Reject(status)))
    case CancelRun(stop) =>
      (sh.(ctl := Observe(sh.ctl, stop).(cancelReturned := true)), Idle)
    case TerminalRun(stop) =>
      (sh.(ctl := Observe(sh.ctl, stop).(terminalReturned := true)), Idle)
    case WritableRun(found) =>
      (sh.(call := if found then OnWritable(sh.call) else sh.call, net := sh.net.(inFlight := false)), Idle)
    case Reject(status) => (TookFinish(sh, status, c.a, c.b), Idle)
  }

  // ---------------------------------------------------------------- executor threads

  predicate CanWrite(sh: Shared, pc: WritePc, c: Choice) {
    match pc
    case Write(_, _) => c.Verdict? && (sh.call.cancelled ==> c.yes)
    case WriteMetadata(_) => c.Answers?
    case WriteSend(_, _) => c.Serialized?
    case WriteError(_, _, _) => c.Go?
    case WriteWait(_, _) => c.Go? && (sh.call.writable || sh.call.cancelled || sh.call.terminal)
  }

  /** The Write loop of ServerWriter and ServerReaderWriter, over State::TryWrite. */
  function DoWrite(sh: Shared, pc: WritePc, c: Choice): (Shared, WorkPc)
    requires CanWrite(sh, pc, c)
  {
    match pc
    case Write(m, im) =>
      if c.yes then (Wrote(sh, m, false), Handler(im))
      else (sh, Writing(if im then WriteSend(m, im) else WriteMetadata(m)))
    case WriteMetadata(m) =>
      if c.a != Ok then (sh, Writing(WriteError(m, false, c.a)))
      else
        var r := SendInitialMetadata(sh.call, sh.trace, c.b);
        (Took(sh, r), Writing(if r.error == Ok then WriteSend(m, true) else WriteError(m, false, r.error)))
    case WriteSend(m, im) =>
      if !c.ok then
        var r := Finish(sh.call, sh.trace, INTERNAL, c.a, c.b);
        (Took(sh, r), Writing(WriteError(m, im, if r.error == Ok then Internal else r.error)))
      else
        var r := Send(sh.call, sh.trace, m, c.a, c.b);
        var s1 := TookSend(sh, m, c.a, c.b);
        if r.error == Ok then (Wrote(s1, m, true), Handler(im)) else (s1, Writing(WriteError(m, im, r.error)))
    case WriteError(m, im, e) =>
      if e != WouldBlock then (Wrote(sh, m, false), Handler(im)) else (sh, Writing(WriteWait(m, im)))
    case WriteWait(m, im) =>
      if sh.call.writable && !sh.call.cancelled && !sh.call.terminal then (sh, Writing(Write(m, im)))
      else (Wrote(sh, m, false), Handler(im))
  }

  predicate CanWork(sh: Shared, pc: WorkPc, c: Choice) {
    match pc
    case Worker => c.Go? && sh.ctl.submitted && !sh.ctl.rejected
    case Handler(_) =>
      (c.StartWrite? && sh.streaming) || (c.ResumeFailed? && !c.status.IsOk()) || c.Returned?
    case HandlerReject(_, _) => c.Answers?
    case Writing(p) => CanWrite(sh, p, c)
    case Check(_, _, _) => c.Verdict? && (sh.call.cancelled ==> c.yes)
    case SendMetadata(_, _, _) => c.Answers?
    case Final(_, _) => c.Copied?
    case Respond(_) => c.Answers?
    case Close(_) => c.Answers?
    case _ => c.Go?
  }

  function DoWork(sh: Shared, t: Tid, pc: WorkPc, c: Choice): (Shared, WorkPc)
    requires CanWork(sh, pc, c)
  {
    match pc
    case Worker => (sh.(ctl := sh.ctl.(anyRun := true)), Begin)
    case Begin =>
      if sh.ctl.gate == Queued then (sh.(ctl := sh.ctl.(gate := BeginStart(sh.ctl.gate), begun := Some(t))), Commit)
      else (sh, WorkerDone)
    case Commit =>
      if sh.ctl.gate == Starting then 
        (sh.(ctl := sh.ctl.(gate := CommitStart(sh.ctl.gate), starts := sh.ctl.starts + 1)), Handler(false))
      else (sh, WorkerDone)
    case Handler(im) =>
      if c.StartWrite? then (sh, Writing(Write(c.m, im)))
      else if c.ResumeFailed? then (sh, HandlerReject(im, c.status))
      else (sh, Check(c.status, c.response, im))
    case HandlerReject(im, status) => (TookFinish(sh, status, c.a, c.b), Handler(im))
    case Writing(p) => DoWrite(sh, p, c)
    case Check(status, response, im) =>
      if c.yes then (sh, WorkerDone) else (sh, SendMetadata(status, response, im))
    case SendMetadata(status, response, im) =>
      if im then (sh, Final(status, response))
      else if c.a != Ok then (sh.(failed := true), Close(Status(INTERNAL, Empty)))
      else
        var r := SendInitialMetadata(sh.call, sh.trace, c.b);
        if r.error == Ok then (Took(sh, r), Final(status, response))
        else (Took(sh, r).(failed := true), Close(Status(INTERNAL, Empty)))
    case Final(status, response) =>
      if c.e != Ok then (sh.(failed := true), Close(Status(INTERNAL, Empty)))
      else if sh.streaming || !status.IsOk() then (sh, Close(status))
      else if !c.serialized then (sh.(failed := true), Close(Status(INTERNAL, Empty)))
      else (sh, Respond(response))
    case Respond(response) =>
      var r := Send(sh.call, sh.trace, response, c.a, c.b);
      var s1 := TookSend(sh, response, c.a, c.b);
      if r.error == Ok then (Wrote(s1, response, true), Close(OK_STATUS))
      else (s1.(failed := true), Close(SendErrorStatus(r.error)))
    case Close(status) => (TookFinish(sh, status, c.a, c.b), WorkerDone)
    case WorkerDone => (sh, Worker)
  }

  // ---------------------------------------------------------------------------- runs

  predicate Can(sh: Shared, pc: Pc, c: Choice) {
    match pc
    case Dispatching(d) => CanDispatch(sh, d, c)
    case Reacting(r) => CanReact(sh, r, c)
    case Working(w) => CanWork(sh, w, c)
  }

  function Do(sh: Shared, t: Tid, pc: Pc, c: Choice): (Shared, Pc)
    requires Can(sh, pc, c)
  {
    match pc
    case Dispatching(d) => var (sh', d') := DoDispatch(sh, d, c); (sh', Dispatching(d'))
    case Reacting(r) => var (sh', r') := DoReact(sh, r, c); (sh', Reacting(r'))
    case Working(w) => var (sh', w') := DoWork(sh, t, w, c); (sh', Working(w'))
  }

  datatype Event = Event(t: Tid, c: Choice)

  predicate Enabled(s: State, e: Event) {
    e.t in s.threads && Can(s.sh, s.threads[e.t], e.c)
  }

  function Step(s: State, e: Event): State
    requires Enabled(s, e)
  {
    var (sh, pc) := Do(s.sh, e.t, s.threads[e.t], e.c);
    State(sh, s.threads[e.t := pc])
  }

  predicate Init(s: State) {
    && s.sh == Shared(s.sh.streaming, s.sh.dispatcher, s.sh.reactor, NEW_CALL, Nil,
                      Control(Queued, 0, false, false, false, None, 0, false, false, false),
                      Net(false, false, false), false, [])
    && forall t | t in s.threads ::
         s.threads[t] == if t == s.sh.dispatcher then Dispatching(Admit)
                         else if t == s.sh.reactor then Reacting(Idle)
                         else Working(Worker)
  }

  predicate Follows(ss: seq<State>, es: seq<Event>, i: nat)
    requires |ss| == |es| + 1 && i < |es|
  {
    Enabled(ss[i], es[i]) && ss[i + 1] == Step(ss[i], es[i])
  }

  ghost predicate IsRun(ss: seq<State>, es: seq<Event>) {
    && |ss| == |es| + 1
    && Init(ss[0])
    && forall i | 0 <= i < |es| :: Follows(ss, es, i)
  }
}
