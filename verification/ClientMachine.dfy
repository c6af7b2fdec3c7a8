/** Any number of threads using one client call, interleaved with a nondeterministic
    transport. A critical section of `mutex_` is one step; `command_mutex_`, which is held
    across such sections, is explicit. */
module ClientMachine {
  import opened Statuses
  import opened ClientCall

  type Tid = nat

  datatype Command = SendMessage(payload: string) | HalfClose

  /** What the caller of an operation does with its result. `App` is an application thread,
      `Trying` is ClientContext::TryCancel, the others are the stages of Channel::CallUnary. */
  datatype Kont =
    | App
    | Trying
    | AfterOpen(request: string)
    | AfterSend
    | AfterClose
    | AfterFirst
    | AfterSecond(first: Option<string>)
    | AfterCancel(first: Option<string>)
    | AfterFinish(first: Option<string>, extra: bool)

  /** The result of the last operation; `ran` counts the commands the transport accepted. */
  datatype Outcome =
    | Nothing
    | Ran(status: Status, ran: nat)
    | Got(payload: Option<string>)
    | Finished(status: Status)

  datatype Pc =
    | Idle(last: Outcome)
    | OpenRegister(k: Kont)
    | OpenMetadata(k: Kont)
    | OpenStart(k: Kont)
    | OpenPending(k: Kont, error: ErrorCode)
    | OpenFailed(k: Kont, failure: Status)
    | TryCancelStart
    | CancelMark(k: Kont)
    | CancelSend(k: Kont)
    | CmdSnapshot(k: Kont, cmd: Command)
    | CmdRun(k: Kont, cmd: Command, gen: nat)
    | CmdWait(k: Kont, cmd: Command, gen: nat)
    | CmdWaitTerminal(k: Kont)
    | CmdFail(k: Kont, error: ErrorCode)
    | ReadWait(k: Kont)
    | ReadResume(k: Kont, payload: string)
    | ReadFail(k: Kont, payload: string, error: ErrorCode)
    | FinishWait(k: Kont)
    | FinishComplete(k: Kont, status: Status)
    | FinishDestroy(k: Kont, status: Status)
    | FinishRelease(k: Kont, status: Status, had: bool)
    | UnaryDone(result: Status, response: Option<string>)

  predicate InOpen(pc: Pc) {
    pc.OpenRegister? || pc.OpenMetadata? || pc.OpenStart? || pc.OpenPending? || pc.OpenFailed?
  }

  predicate InCancel(pc: Pc) {
    pc.TryCancelStart? || pc.CancelMark? || pc.CancelSend?
  }

  predicate InCommand(pc: Pc) {
    pc.CmdSnapshot? || pc.CmdRun? || pc.CmdWait? || pc.CmdWaitTerminal? || pc.CmdFail?
  }

  predicate InRead(pc: Pc) {
    pc.ReadWait? || pc.ReadResume? || pc.ReadFail?
  }

  predicate InFinish(pc: Pc) {
    pc.FinishWait? || pc.FinishComplete? || pc.FinishDestroy? || pc.FinishRelease?
  }

  /** The transport: whether the stream exists, may deliver, refused to resume, owes a writable
      notification, was cancelled, has run on_terminal (its last callback), was released. A
      cancelled stream owes no on_writable; one already on its way may still arrive. */
  datatype Net = Net(
    open: bool, mayDeliver: bool, refused: bool, owesWritable: bool,
    cancelled: bool, ended: bool, released: bool)

  function Cancel(n: Net): Net { n.(cancelled := true, owesWritable := false) }

  datatype OpenPhase = Unopened | Opening | Opened

  /** `delivered` and `returned` are histories; `resumeOwner` names the reader that
      took a message and has not resumed reception yet. */
  datatype Shared = Shared(
    f: Fields, ctx: Context, net: Net,
    commandOwner: Option<Tid>, resumeOwner: Option<Tid>,
    phase: OpenPhase, opener: Tid, unary: bool, registerRan: bool, cancelDone: bool,
    delivered: seq<string>, returned: seq<string>)

  datatype State = State(sh: Shared, threads: map<Tid, Pc>)

  /** A thread's nondeterministic choice: which operation to begin, or what the transport answers. */
  datatype Choice =
    | Go
    | Answer(e: ErrorCode)
    | StartOpen
    | StartUnary(request: string)
    | StartTryCancel
    | StartCancel
    | StartCommand(cmd: Command)
    | StartRead
    | StartFinish

  datatype NetEvent =
    | Deliver(payload: string)
    | Writable
    | Terminated(code: int, message: Text)

  datatype Event = Thread(t: Tid, c: Choice) | Transport(n: NetEvent)

  predicate Fatal(e: ErrorCode) {
    e != Ok && e != Closed && e != Unavailable && e != WouldBlock
  }

  predicate Live(sh: Shared) {
    sh.net.open && !sh.net.ended && !sh.net.released
  }

  // ---------------------------------------------------------------- transport

  predicate CanNet(sh: Shared, n: NetEvent) {
    Live(sh) && (n.Deliver? ==> sh.net.mayDeliver)
  }

  function DoNet(sh: Shared, n: NetEvent): Shared {
    match n
    case Deliver(p) =>
      sh.(f := PutMessage(sh.f, p), net := sh.net.(mayDeliver := false), delivered := sh.delivered + [p])
    case Writable =>
      sh.(f := BumpWritable(sh.f), net := sh.net.(owesWritable := false))
    case Terminated(code, message) =>
      sh.(f := SetTerminal(sh.f, NativeStatus(code, message)), net := sh.net.(ended := true))
  }

  // ------------------------------------------------------------------ threads

  /** Channel::CallUnary after Finish: the only place that writes the response. */
  function UnaryResult(status: Status, first: Option<string>, extra: bool): Pc {
    if extra then UnaryDone(Status(INTERNAL, MultipleResponses), None)
    else if !status.IsOk() then UnaryDone(status, None)
    else if first.None? then UnaryDone(Status(INTERNAL, ResponseMissing), None)
    else UnaryDone(OK_STATUS, first)
  }

  function Continue(k: Kont, out: Outcome): (pc: Pc)
    ensures pc.Idle? || pc.CmdSnapshot? || pc.ReadWait? || pc.CancelMark? || pc.FinishWait? || pc.UnaryDone?
  {
    match k
    case App => Idle(out)
    case Trying => Idle(Nothing)
    case AfterOpen(request) => CmdSnapshot(AfterSend, SendMessage(request))
    case AfterSend =>
      if out.Ran? && out.status.IsOk() then CmdSnapshot(AfterClose, HalfClose)
      else FinishWait(AfterFinish(None, false))
    case AfterClose =>
      if out.Ran? && out.status.IsOk() then ReadWait(AfterFirst)
      else FinishWait(AfterFinish(None, false))
    case AfterFirst => ReadWait(AfterSecond(if out.Got? then out.payload else None))
    case AfterSecond(first) =>
      if out.Got? && out.payload.Some? then CancelMark(AfterCancel(first))
      else FinishWait(AfterFinish(first, false))
    case AfterCancel(first) => FinishWait(AfterFinish(first, true))
    case AfterFinish(first, extra) =>
      UnaryResult(if out.Finished? then out.status else OK_STATUS, first, extra)
  }

  /** Where a step leaves a thread: at a control point, or returning to the caller of its operation. */
  datatype Next = Jump(pc: Pc) | Ret(k: Kont, out: Outcome)

  function Land(n: Next): Pc {
    if n.Jump? then n.pc else Continue(n.k, n.out)
  }

  predicate MayUse(sh: Shared) { !sh.unary && sh.phase == Opened }

  predicate CanStart(sh: Shared, t: Tid, c: Choice) {
    match c
    case StartOpen => !sh.unary && t == sh.opener && sh.phase == Unopened
    case StartUnary(_) => sh.unary && t == sh.opener && sh.phase == Unopened
    case StartTryCancel => true
    case StartCancel => MayUse(sh)
    case StartCommand(_) => MayUse(sh)
    case StartRead => MayUse(sh)
    case StartFinish => MayUse(sh)
    case _ => false
  }

  predicate Can(sh: Shared, t: Tid, pc: Pc, c: Choice) {
    match pc
    case Idle(_) => CanStart(sh, t, c)
    case UnaryDone(_, _) => false
    case OpenMetadata(_) => c.Answer?
    case OpenStart(_) => c.Answer? && sh.commandOwner.None?
    case CancelMark(_) => c.Go? && sh.commandOwner.None?
    case CmdRun(_, _, _) => c.Answer? && sh.commandOwner.None? && (!sh.f.streamSet ==> c.e == Closed)
    case CmdWait(_, _, gen) => c.Go? && (sh.f.terminal || sh.f.generation != gen)
    case CmdWaitTerminal(_) => c.Go? && sh.f.terminal
    case ReadWait(_) => c.Go? && (sh.f.hasMessage || sh.f.terminal)
    case ReadResume(_, _) => c.Answer? && sh.commandOwner.None?
    case FinishWait(_) => c.Go? && sh.f.terminal
    case FinishDestroy(_, _) => c.Go? && sh.commandOwner.None?
    case _ => c.Go?
  }

  function DoStart(sh: Shared, c: Choice): (Shared, Next)
    requires c.StartOpen? || c.StartUnary? || c.StartTryCancel? || c.StartCancel? || c.StartCommand? || c.StartRead? || c.StartFinish?
  {
    match c
    case StartOpen => (sh.(phase := Opening), Jump(OpenRegister(App)))
    case StartUnary(request) => (sh.(phase := Opening), Jump(OpenRegister(AfterOpen(request))))
    case StartTryCancel => (sh, Jump(TryCancelStart))
    case StartCancel => (sh, Jump(CancelMark(App)))
    case StartCommand(cmd) => (sh, Jump(CmdSnapshot(App, cmd)))
    case StartRead => (sh, Jump(ReadWait(App)))
    case StartFinish => (sh, Jump(FinishWait(App)))
  }

  /** An Open that ends without a stream. */
  function FailOpen(sh: Shared, k: Kont, status: Status): (Shared, Next) {
    (sh.(f := SetTerminal(sh.f, status), phase := Opened), Ret(k, Nothing))
  }

  function DoOpen(sh: Shared, t: Tid, pc: Pc, c: Choice): (Shared, Next)
    requires InOpen(pc)
    requires Can(sh, t, pc, c)
  {
    match pc
    case OpenRegister(k) =>
      var s1 := sh.(registerRan := true, ctx := Register(sh.ctx));
      if MayRegister(sh.ctx) then (s1, Jump(OpenMetadata(k)))
      else FailOpen(s1, k, Status(CANCELLED, CancelledBeforeStart))
    case OpenMetadata(k) =>
      if c.e == Ok then (sh, Jump(OpenStart(k))) else FailOpen(sh, k, ErrorStatus(c.e))
    case OpenStart(k) =>
      var n := if c.e == Ok then sh.net.(open := true, mayDeliver := true) else sh.net;
      (sh.(commandOwner := Some(t), net := n), Jump(OpenPending(k, c.e)))
    case OpenPending(k, e) =>
      if e == Ok then
        var n := if sh.f.cancelRequested then Cancel(sh.net) else sh.net;
        (sh.(f := AttachStream(sh.f), net := n, commandOwner := None, phase := Opened), Ret(k, Nothing))
      else
        (sh.(commandOwner := None), Jump(OpenFailed(k, ErrorStatus(e))))
    case OpenFailed(k, status) => FailOpen(sh, k, status)
  }

  /** Records that a TryCancel completed. */
  function Cancelled(sh: Shared, k: Kont): Shared {
    if k == Trying then sh.(cancelDone := true) else sh
  }

  function DoCancel(sh: Shared, t: Tid, pc: Pc): (Shared, Next)
    requires InCancel(pc)
  {
    match pc
    case TryCancelStart =>
      var s1 := sh.(ctx := MarkTryCancel(sh.ctx));
      if !sh.ctx.terminal && sh.ctx.target then (s1, Jump(CancelMark(Trying)))
      else (s1.(cancelDone := true), Ret(Trying, Nothing))
    case CancelMark(k) =>
      if sh.f.terminal then (Cancelled(sh, k), Ret(k, Nothing))
      else (sh.(f := MarkCancelled(sh.f), commandOwner := Some(t)), Jump(CancelSend(k)))
    case CancelSend(k) =>
      var n := if sh.f.streamSet then Cancel(sh.net) else sh.net;
      (Cancelled(sh.(net := n, commandOwner := None), k), Ret(k, Nothing))
  }

  function DoCommand(sh: Shared, t: Tid, pc: Pc, c: Choice): (Shared, Next)
    requires InCommand(pc)
    requires Can(sh, t, pc, c)
  {
    match pc
    case CmdSnapshot(k, cmd) =>
      if sh.f.terminal then (sh, Ret(k, Ran(sh.f.status, 0))) else (sh, Jump(CmdRun(k, cmd, sh.f.generation)))
    case CmdRun(k, cmd, gen) =>
      if c.e == Ok then (sh, Ret(k, Ran(OK_STATUS, 1)))
      else if c.e == Closed then (sh, Jump(CmdWaitTerminal(k)))
      else if c.e == WouldBlock then 
        (sh.(net := sh.net.(owesWritable := !sh.net.cancelled)), Jump(CmdWait(k, cmd, gen)))
      else (sh, Jump(CmdFail(k, c.e)))
    case CmdWait(k, cmd, gen) =>
      if sh.f.terminal then (sh, Ret(k, Ran(sh.f.status, 0))) else (sh, Jump(CmdSnapshot(k, cmd)))
    case CmdWaitTerminal(k) => (sh, Ret(k, Ran(sh.f.status, 0)))
    case CmdFail(k, e) =>
      var status := CommandFailure(e);
      var prefixed := Status(status.code, CommandFailed(status.message));
      (sh.(f := SetTerminal(sh.f, prefixed)), Ret(k, Ran(status, 0)))
  }

  function DoRead(sh: Shared, t: Tid, pc: Pc, c: Choice): (Shared, Next)
    requires InRead(pc)
    requires Can(sh, t, pc, c)
  {
    match pc
    case ReadWait(k) =>
      if !sh.f.hasMessage then (sh, Ret(k, Got(None)))
      else (sh.(f := TakeMessage(sh.f), resumeOwner := Some(t), returned := sh.returned + [sh.f.message]),
            Jump(ReadResume(k, sh.f.message)))
    case ReadResume(k, p) =>
      var s1 := sh.(resumeOwner := None);
      if !sh.f.streamSet then (s1, Ret(k, Got(Some(p))))
      else if c.e == Ok then (s1.(net := sh.net.(mayDeliver := true)), Ret(k, Got(Some(p))))
      else
        var s2 := s1.(net := sh.net.(refused := true));
        if Fatal(c.e) then (s2.(commandOwner := Some(t)), Jump(ReadFail(k, p, c.e)))
        else (s2, Ret(k, Got(Some(p))))
    case ReadFail(k, p, e) =>
      (sh.(f := SetTerminal(sh.f, ErrorStatus(e)), commandOwner := None), Ret(k, Got(Some(p))))
  }

  function DoFinish(sh: Shared, pc: Pc): (Shared, Next)
    requires InFinish(pc)
  {
    match pc
    case FinishWait(k) => (sh, Jump(FinishComplete(k, sh.f.status)))
    case FinishComplete(k, status) => (sh.(ctx := CompleteCall(sh.ctx)), Jump(FinishDestroy(k, status)))
    case FinishDestroy(k, status) =>
      (sh.(f := DetachStream(sh.f)), Jump(FinishRelease(k, status, sh.f.streamSet)))
    case FinishRelease(k, status, had) =>
      (if had then sh.(net := sh.net.(released := true)) else sh, Ret(k, Finished(status)))
  }

  function Do(sh: Shared, t: Tid, pc: Pc, c: Choice): (Shared, Next)
    requires Can(sh, t, pc, c)
  {
    if pc.Idle? then DoStart(sh, c)
    else if InOpen(pc) then
      DoOpen(sh, t, pc, c)
    else if InCancel(pc) then DoCancel(sh, t, pc)
    else if InCommand(pc) then
      DoCommand(sh, t, pc, c)
    else if InRead(pc) then DoRead(sh, t, pc, c)
    else DoFinish(sh, pc)
  }

  // --------------------------------------------------------------------- runs

  predicate Enabled(s: State, e: Event) {
    match e
    case Thread(t, c) => t in s.threads && Can(s.sh, t, s.threads[t], c)
    case Transport(n) => CanNet(s.sh, n)
  }

  function Step(s: State, e: Event): State
    requires Enabled(s, e)
  {
    match e
    case Thread(t, c) =>
      var (sh, n) := Do(s.sh, t, s.threads[t], c);
      State(sh, s.threads[t := Land(n)])
    case Transport(n) => State(DoNet(s.sh, n), s.threads)
  }

  /** Any set of threads, all idle; thread `opener` opens the call or runs CallUnary. */
  predicate Init(s: State) {
    && s.sh == Shared(NEW_FIELDS, NEW_CONTEXT, Net(false, false, false, false, false, false, false), None, None,
                      Unopened, s.sh.opener, s.sh.unary, false, false, [], [])
    && forall t | t in s.threads :: s.threads[t] == Idle(Nothing)
  }

  predicate Follows(ss: seq<State>, es: seq<Event>, i: nat)
    requires |ss| == |es| + 1 && i < |es|
  {
    Enabled(ss[i], es[i]) && ss[i + 1] == Step(ss[i], es[i])
  }

  ghost predicate IsRun(ss: seq<State>, es: seq<Event>) {
    && |ss| == |es| + 1
    && Init(ss[0])
    && forall i | 0 <= i < |es| :: Follows(ss, es, i)
  }
}
