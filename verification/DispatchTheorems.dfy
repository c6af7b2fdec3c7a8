/** What the synchronous server promises, over every run of its threads. */
module DispatchTheorems {
  import opened Statuses
  import opened TypedCall
  import opened ServerDispatch
  import opened DispatchProofs
  import opened DispatchStatus

  // ------------------------------------------------------------------ messages written

  /** The payloads of the Write calls handlers make in a sequence of events. */
  function Calls(es: seq<ServerDispatch.Event>): seq<string> {
    if es == [] then [] else Calls(es[..|es| - 1]) + CallAt(es[|es| - 1])
  }

  function CallAt(e: ServerDispatch.Event): seq<string> {
    if e.c.StartWrite? then [e.c.m] else []
  }

  function Recorded(ws: seq<Written>): seq<string> {
    if ws == [] then [] else Recorded(ws[..|ws| - 1]) + [ws[|ws| - 1].payload]
  }

  /** The message of a Write that has not returned. */
  function InWrite(pc: WorkPc): seq<string> { if pc.Writing? then [pc.p.m] else [] }

  function InProgress(s: State): seq<string> {
    match s.sh.ctl.begun
    case None => []
    case Some(t) => if t in s.threads && s.threads[t].Working? then InWrite(s.threads[t].w) else []
  }

  lemma WrittenAfter(ws: seq<Written>, w: Written)
    ensures Recorded(ws + [w]) == Recorded(ws) + [w.payload]
  {
    assert (ws + [w])[..|ws + [w]| - 1] == ws;
  }

  /** A Write goes on with its message, or returns and leaves a record of it. */
  lemma WriteMoves(sh: Shared, pc: WritePc, c: Choice)
    requires CanWrite(sh, pc, c)
    ensures var (sh', pc') := DoWrite(sh, pc, c);
            && sh'.ctl == sh.ctl
            && if pc'.Writing? then pc'.p.m == pc.m && sh'.writes == sh.writes
               else sh'.writes == sh.writes + [Written(pc.m, true)] || sh'.writes == sh.writes + [Written(pc.m, false)]
  {
  }

  /** Inside a Write nothing is recorded; leaving it records its message, once. */
  lemma WriteRecords(sh: Shared, pc: WritePc, c: Choice)
    requires CanWrite(sh, pc, c)
    ensures var (sh', pc') := DoWrite(sh, pc, c);
            sh'.ctl == sh.ctl && Recorded(sh'.writes) + InWrite(pc') == Recorded(sh.writes) + [pc.m]
  {
    WriteMoves(sh, pc, c);
    WrittenAfter(sh.writes, Written(pc.m, true));
    WrittenAfter(sh.writes, Written(pc.m, false));
  }

  lemma WorkRecords(sh: Shared, t: Tid, pc: WorkPc, c: Choice)
    requires sh.streaming && CanWork(sh, pc, c) && LocWorker(sh, t, pc)
    ensures var (sh', pc') := DoWork(sh, t, pc, c);
            Recorded(sh'.writes) + InWrite(pc') == Recorded(sh.writes) + InWrite(pc) + (if c.StartWrite? then [c.m] else [])
  {
    if pc.Writing? {
      WriteRecords(sh, pc.p, c);
    }
  }

  /** A step that neither starts nor ends a Write. */
  ghost predicate Silent(sh: Shared, sh': Shared, c: Choice) {
    sh'.writes == sh.writes && sh'.ctl.begun == sh.ctl.begun && !c.StartWrite?
  }

  lemma DispatchSilent(sh: Shared, pc: DispatchPc, c: Choice)
    requires CanDispatch(sh, pc, c)
    ensures Silent(sh, DoDispatch(sh, pc, c).0, c)
  {
  }

  lemma ReactSilent(sh: Shared, pc: ReactPc, c: Choice)
    requires CanReact(sh, pc, c)
    ensures Silent(sh, DoReact(sh, pc, c).0, c)
  {
  }

  /** Only the thread that runs the handler is inside a Write. */
  lemma WriterRuns(s: State, t: Tid)
    requires Inv(s) && t in s.threads && s.threads[t].Working? && s.sh.ctl.begun != Some(t)
    ensures InWrite(s.threads[t].w) == [] && !s.threads[t].w.Handler? && !s.threads[t].w.Commit?
  {
    assert Loc(s.sh, t, s.threads[t]);
  }

  lemma BegunMoves(sh: Shared, t: Tid, pc: WorkPc, c: Choice)
    requires CanWork(sh, pc, c)
    ensures var (sh', pc') := DoWork(sh, t, pc, c);
            && (sh'.ctl.begun == sh.ctl.begun || (pc == Begin && sh.ctl.gate == Queued && sh'.ctl.begun == Some(t) && pc' == Commit))
            && (c.StartWrite? && !pc.Writing? ==> pc.Handler?)
  {
    if pc.Writing? {
      WriteRecords(sh, pc.p, c);
    }
  }

  /** A step of the thread that runs the handler. */
  lemma RunnerCallStep(s: State, e: ServerDispatch.Event, s': State)
    requires Inv(s) && s.sh.streaming && Enabled(s, e) && s' == Step(s, e)
    requires s.threads[e.t].Working? && s.sh.ctl.begun == Some(e.t)
    ensures Recorded(s'.sh.writes) + InProgress(s') == Recorded(s.sh.writes) + InProgress(s) + CallAt(e)
  {
    assert Loc(s.sh, e.t, s.threads[e.t]);
    WorkRecords(s.sh, e.t, s.threads[e.t].w, e.c);
    BegunMoves(s.sh, e.t, s.threads[e.t].w, e.c);
  }

  /** Any other step records nothing and leaves the handler's thread where it is. */
  lemma OtherCallStep(s: State, e: ServerDispatch.Event, s': State)
    requires Inv(s) && s.sh.streaming && Enabled(s, e) && s' == Step(s, e)
    requires !(s.threads[e.t].Working? && s.sh.ctl.begun == Some(e.t))
    ensures Recorded(s'.sh.writes) == Recorded(s.sh.writes) && InProgress(s') == InProgress(s) && CallAt(e) == []
  {
    var pc := s.threads[e.t];
    assert Loc(s.sh, e.t, pc);
    match pc
    case Dispatching(d) => DispatchSilent(s.sh, d, e.c);
    case Reacting(r) => ReactSilent(s.sh, r, e.c);
    case Working(w) =>
      WriterRuns(s, e.t);
      BegunMoves(s.sh, e.t, w, e.c);
      OtherWorkerSilent(s.sh, e.t, w, e.c);
  }

  lemma OtherWorkerSilent(sh: Shared, t: Tid, pc: WorkPc, c: Choice)
    requires CanWork(sh, pc, c) && LocWorker(sh, t, pc) && sh.ctl.begun != Some(t)
    ensures var (sh', pc') := DoWork(sh, t, pc, c);
            sh'.writes == sh.writes && !c.StartWrite? && InWrite(pc') == []
  {
  }

  /** One step by any thread: a Write call begins, goes on, or leaves its one record. */
  lemma CallStep(s: State, e: ServerDispatch.Event, s': State)
    requires Inv(s) && s.sh.streaming && Enabled(s, e) && s' == Step(s, e)
    ensures Recorded(s'.sh.writes) + InProgress(s') == Recorded(s.sh.writes) + InProgress(s) + CallAt(e)
  {
    if s.threads[e.t].Working? && s.sh.ctl.begun == Some(e.t) {
      RunnerCallStep(s, e, s');
    } else {
      OtherCallStep(s, e, s');
    }
  }

  /** Every Write call has left exactly one record, in order, but for the one that has not
      returned yet. */
  lemma {:induction false} CallsAreRecorded(ss: seq<State>, es: seq<ServerDispatch.Event>, k: nat)
    requires IsRun(ss, es) && k < |ss| && ss[k].sh.streaming
    ensures Calls(es[..k]) == Recorded(ss[k].sh.writes) + InProgress(ss[k])
  {
    if k > 0 {
      RunKeeps(ss, es, k - 1);
      assert Follows(ss, es, k - 1);
      KindStays(ss[k - 1], es[k - 1], ss[k]);
      CallsAreRecorded(ss, es, k - 1);
      CallStep(ss[k - 1], es[k - 1], ss[k]);
      assert es[..k][..k - 1] == es[..k - 1];
    }
  }

  lemma KindStays(s: State, e: ServerDispatch.Event, s': State)
    requires Inv(s) && Enabled(s, e) && s' == Step(s, e)
    ensures s'.sh.streaming == s.sh.streaming
  {
    StepKeeps(s, e);
  }

  /** The Write calls made so far are, in order, those that returned and at most one that has
      not; the messages the transport accepted are exactly those whose Write returned true, in
      order, once each; and the commands it accepted are initial metadata, messages, trailers. */
  lemma WritesAreDelivered(ss: seq<State>, es: seq<ServerDispatch.Event>, k: nat)
    requires IsRun(ss, es) && k < |ss|
    ensures ss[k].sh.streaming ==> Calls(es[..k]) == Recorded(ss[k].sh.writes) + InProgress(ss[k])
    ensures Messages(ss[k].sh.trace) == Accepted(ss[k].sh.writes)
    ensures Grammar(AsSeq(ss[k].sh.trace))
  {
    RunKeeps(ss, es, k);
    OrderedIsGrammar(ss[k].sh.trace);
    if ss[k].sh.streaming {
      CallsAreRecorded(ss, es, k);
    }
  }

  // --------------------------------------------------------------------------- wakeups

  /** Blocked with nobody left to say otherwise. */
  predicate Lost(sh: Shared) {
    !sh.call.writable && !sh.call.terminal && !sh.net.closing && !sh.net.owesWritable && !sh.net.inFlight
  }

  predicate Drops(sh: Shared, c: Choice) {
    c == FireWritable(false) && !sh.call.writable && !sh.net.closing
  }

  lemma DispatchWakes(sh: Shared, pc: DispatchPc, c: Choice)
    requires CanDispatch(sh, pc, c) && Glob(sh) && Lost(DoDispatch(sh, pc, c).0)
    ensures Lost(sh)
  {
    if pc.Refuse? {
      FinishTracked(sh.call, sh.trace, pc.status.code, c.a, c.b);
    } else if pc.RefuseRejected? {
      FinishTracked(sh.call, sh.trace, RESOURCE_EXHAUSTED, c.a, c.b);
    }
  }

  lemma ReactWakes(sh: Shared, pc: ReactPc, c: Choice)
    requires CanReact(sh, pc, c) && Glob(sh) && LocReact(sh.ctl, sh.call, sh.net.inFlight, pc)
    ensures !Lost(sh) && Lost(DoReact(sh, pc, c).0) <==> Drops(sh, c)
  {
    if pc.Reject? {
      FinishTracked(sh.call, sh.trace, pc.status.code, c.a, c.b);
    }
  }

  lemma SendWakes(sh: Shared, m: string, a: ErrorCode, b: ErrorCode)
    requires Glob(sh) && Lost(TookSend(sh, m, a, b))
    ensures Lost(sh)
  {
    SendTracked(sh.call, sh.trace, m, a, b);
  }

  lemma FinishWakes(sh: Shared, status: Status, a: ErrorCode, b: ErrorCode)
    requires Glob(sh) && Lost(TookFinish(sh, status, a, b))
    ensures Lost(sh)
  {
    FinishTracked(sh.call, sh.trace, status.code, a, b);
  }

  lemma WriteWakes(sh: Shared, pc: WritePc, c: Choice)
    requires CanWrite(sh, pc, c) && Glob(sh) && Lost(DoWrite(sh, pc, c).0)
    ensures Lost(sh)
  {
    if pc.WriteSend? {
      if c.ok {
        SendWakes(sh, pc.m, c.a, c.b);
      } else {
        FinishWakes(sh, Status(INTERNAL, Empty), c.a, c.b);
      }
    }
  }

  lemma WorkWakes(sh: Shared, t: Tid, pc: WorkPc, c: Choice)
    requires CanWork(sh, pc, c) && Glob(sh) && Lost(DoWork(sh, t, pc, c).0)
    ensures Lost(sh)
  {
    match pc
    case Writing(p) => WriteWakes(sh, p, c);
    case Respond(response) => SendWakes(sh, response, c.a, c.b);
    case Close(status) => FinishWakes(sh, status, c.a, c.b);
    case HandlerReject(_, status) => FinishWakes(sh, status, c.a, c.b);
    case _ =>
  }

  /** A step loses a wakeup exactly when it delivers on_writable to a blocked, open call that
      the service fails to retain. */
  lemma LostExactlyByDrop(s: State, e: ServerDispatch.Event)
    requires Inv(s) && Enabled(s, e)
    ensures !Lost(s.sh) && Lost(Step(s, e).sh) <==> s.threads[e.t].Reacting? && Drops(s.sh, e.c)
  {
    assert Loc(s.sh, e.t, s.threads[e.t]);
    match s.threads[e.t] {
      case Dispatching(d) => if Lost(Step(s, e).sh) { DispatchWakes(s.sh, d, e.c); }
      case Reacting(r) => ReactWakes(s.sh, r, e.c);
      case Working(w) => if Lost(Step(s, e).sh) { WorkWakes(s.sh, e.t, w, e.c); }
    }
  }

  lemma StaysAwake(s: State, e: ServerDispatch.Event, s': State)
    requires Inv(s) && Enabled(s, e) && s' == Step(s, e) && !Lost(s.sh) && e.c != FireWritable(false)
    ensures !Lost(s'.sh)
  {
    LostExactlyByDrop(s, e);
  }

  lemma {:induction false} NeverLost(ss: seq<State>, es: seq<ServerDispatch.Event>, k: nat)
    requires IsRun(ss, es) && k < |ss|
    requires forall i | 0 <= i < k :: es[i].c != FireWritable(false)
    ensures !Lost(ss[k].sh)
  {
    if k > 0 {
      NeverLost(ss, es, k - 1);
      RunKeeps(ss, es, k - 1);
      assert Follows(ss, es, k - 1);
      StaysAwake(ss[k - 1], es[k - 1], ss[k]);
    }
  }

  /** Thread `t` is inside a Write and its wait cannot end yet. */
  predicate Waits(s: State, t: Tid) {
    && t in s.threads && s.threads[t].Working? && s.threads[t].w.Writing? && s.threads[t].w.p.WriteWait?
    && !CanWrite(s.sh, s.threads[t].w.p, Go)
  }

  /** No lost wakeup: if every on_writable finds its call, a writer that has to wait is owed
      on_writable, or it is in flight, or the call is closing and on_terminal is owed. */
  lemma NoLostWakeup(ss: seq<State>, es: seq<ServerDispatch.Event>, k: nat, t: Tid)
    requires IsRun(ss, es) && k < |ss|
    requires forall i | 0 <= i < k :: es[i].c != FireWritable(false)
    requires Waits(ss[k], t)
    ensures ss[k].sh.net.owesWritable || ss[k].sh.net.inFlight || ss[k].sh.net.closing
  {
    NeverLost(ss, es, k);
  }

  lemma Extend(ss: seq<State>, es: seq<ServerDispatch.Event>, e: ServerDispatch.Event, s': State)
    returns (ss': seq<State>, es': seq<ServerDispatch.Event>)
    requires IsRun(ss, es) && Enabled(ss[|es|], e) && s' == Step(ss[|es|], e)
    ensures IsRun(ss', es') && |es'| == |es| + 1 && ss'[|es'|] == s'
  {
    ss', es' := ss + [s'], es + [e];
    forall i | 0 <= i < |es'| ensures Follows(ss', es', i) {
      if i < |es| {
        assert Follows(ss, es, i);
      }
    }
  }

  /** A streaming call with one thread of each kind. */
  function Example(call: Call, trace: Trace, ctl: Control, net: Net, d: DispatchPc, r: ReactPc, w: WorkPc): State {
    State(Shared(true, 0, 1, call, trace, ctl, net, false, []),
          map[0 := Dispatching(d), 1 := Reacting(r), 2 := Working(w)])
  }

  const QUIET := Net(false, false, false)

  const WATCHED := NEW_CALL.(watchCancel := true, watchTerminal := true)

  function AtStage(n: nat): Control {
    Control(Queued, n, false, false, false, None, 0, false, false, false)
  }

  lemma ExampleAdmitted()
    returns (ss: seq<State>, es: seq<ServerDispatch.Event>)
    ensures IsRun(ss, es) && ss[|es|] == Example(NEW_CALL, Nil, AtStage(1), QUIET, SetCancelObserver, Idle, Worker)
  {
    var s0 := Example(NEW_CALL, Nil, AtStage(0), QUIET, Admit, Idle, Worker);
    assert Init(s0);
    ss, es := [s0], [];
    ss, es := Extend(ss, es, ServerDispatch.Event(0, Admitted(OK_STATUS)),
                     Example(NEW_CALL, Nil, AtStage(1), QUIET, SetCancelObserver, Idle, Worker));
  }

  lemma ExampleDispatched()
    returns (ss: seq<State>, es: seq<ServerDispatch.Event>)
    ensures IsRun(ss, es)
    ensures ss[|es|] == Example(WATCHED, Nil, AtStage(5).(submitted := true), QUIET, Submitting, Idle, Worker)
  {
    ss, es := ExampleAdmitted();
    ss, es := Extend(ss, es, ServerDispatch.Event(0, Go),
                     Example(NEW_CALL.(watchCancel := true), Nil, AtStage(3), QUIET, SetTerminalObserver, Idle, Worker));
    ss, es := Extend(ss, es, ServerDispatch.Event(0, Go),
                     Example(WATCHED, Nil, AtStage(5), QUIET, Submit, Idle, Worker));
    ss, es := Extend(ss, es, ServerDispatch.Event(0, Go),
                     Example(WATCHED, Nil, AtStage(5).(submitted := true), QUIET, Submitting, Idle, Worker));
  }

  const STARTED := Control(Running, 5, true, false, true, Some(2), 1, false, false, false)

  lemma ExampleStarted()
    returns (ss: seq<State>, es: seq<ServerDispatch.Event>)
    ensures IsRun(ss, es) && ss[|es|] == Example(WATCHED, Nil, STARTED, QUIET, Submitting, Idle, Handler(false))
  {
    ss, es := ExampleDispatched();
    var k := AtStage(5).(submitted := true, anyRun := true);
    ss, es := Extend(ss, es, ServerDispatch.Event(2, Go), Example(WATCHED, Nil, k, QUIET, Submitting, Idle, Begin));
    k := k.(gate := Starting, begun := Some(2));
    ss, es := Extend(ss, es, ServerDispatch.Event(2, Go), Example(WATCHED, Nil, k, QUIET, Submitting, Idle, Commit));
    ss, es := Extend(ss, es, ServerDispatch.Event(2, Go),
                     Example(WATCHED, Nil, STARTED, QUIET, Submitting, Idle, Handler(false)));
  }

  const BLOCKED := WATCHED.(metadataSent := true, writable := false)

  lemma ExampleWriting()
    returns (ss: seq<State>, es: seq<ServerDispatch.Event>)
    ensures IsRun(ss, es)
    ensures ss[|es|] == Example(WATCHED, Nil, STARTED, QUIET, Submitting, Idle, Writing(WriteMetadata("m")))
  {
    ss, es := ExampleStarted();
    ss, es := Extend(ss, es, ServerDispatch.Event(2, StartWrite("m")),
                     Example(WATCHED, Nil, STARTED, QUIET, Submitting, Idle, Writing(Write("m", false))));
    ss, es := Extend(ss, es, ServerDispatch.Event(2, Verdict(false)),
                     Example(WATCHED, Nil, STARTED, QUIET, Submitting, Idle, Writing(WriteMetadata("m"))));
  }

  lemma ExampleBlocked()
    returns (ss: seq<State>, es: seq<ServerDispatch.Event>)
    ensures IsRun(ss, es)
    ensures ss[|es|] == Example(BLOCKED, Then(Nil, InitialMetadata), STARTED, QUIET.(owesWritable := true),
                                Submitting, Idle, Writing(WriteWait("m", true)))
  {
    ss, es := ExampleWriting();
    var t := Then(Nil, InitialMetadata);
    ss, es := Extend(ss, es, ServerDispatch.Event(2, Answers(Ok, Ok)),
                     Example(WATCHED.(metadataSent := true), t, STARTED, QUIET, Submitting, Idle,
                             Writing(WriteSend("m", true))));
    var n := QUIET.(owesWritable := true);
    ss, es := Extend(ss, es, ServerDispatch.Event(2, Serialized(true, Ok, WouldBlock)),
                     Example(BLOCKED, t, STARTED, n, Submitting, Idle, Writing(WriteError("m", true, WouldBlock))));
    ss, es := Extend(ss, es, ServerDispatch.Event(2, Go),
                     Example(BLOCKED, t, STARTED, n, Submitting, Idle, Writing(WriteWait("m", true))));
  }

  /** The condition is needed: a service that fails to retain the call for one on_writable
      leaves a writer waiting on an open call that nobody will wake. */
  lemma DroppedWakeupStrands()
    ensures exists ss: seq<State>, es: seq<ServerDispatch.Event> ::
              IsRun(ss, es) && Waits(ss[|es|], 2) && Lost(ss[|es|].sh)
  {
    var ss, es := ExampleBlocked();
    var s := Example(BLOCKED, Then(Nil, InitialMetadata), STARTED, QUIET, Submitting, WritableRun(false),
                     Writing(WriteWait("m", true)));
    ss, es := Extend(ss, es, ServerDispatch.Event(1, FireWritable(false)), s);
    assert Waits(s, 2) && Lost(s.sh);
  }

  // ------------------------------------------------------------------------ start gate

  /** Of one call, whatever the executor does: at most one start, by the thread that began it;
      a rejected or refused call never starts; and a worker is turned away only by another
      start, a cancellation, the end of the call or a rejection. */
  lemma StartsAtMostOnce(ss: seq<State>, es: seq<ServerDispatch.Event>, k: nat)
    requires IsRun(ss, es) && k < |ss|
    ensures ss[k].sh.ctl.starts <= 1
    ensures ss[k].sh.ctl.rejected || ss[k].sh.ctl.stage < 5 ==> ss[k].sh.ctl.starts == 0
    ensures ss[k].sh.ctl.gate == Stopped ==>
              ss[k].sh.call.cancelled || ss[k].sh.call.terminal || ss[k].sh.ctl.rejected
    ensures forall t, u | t in ss[k].threads && u in ss[k].threads ::
              InHandler(ss[k].threads[t]) && InHandler(ss[k].threads[u]) ==> t == u
  {
    RunKeeps(ss, es, k);
    forall t, u | t in ss[k].threads && u in ss[k].threads && InHandler(ss[k].threads[t]) && InHandler(ss[k].threads[u])
      ensures t == u
    {
      assert Loc(ss[k].sh, t, ss[k].threads[t]) && Loc(ss[k].sh, u, ss[k].threads[u]);
    }
  }

  predicate InHandler(pc: Pc) {
    pc.Working? && !pc.w.Worker? && !pc.w.Begin? && !pc.w.Commit? && !pc.w.WorkerDone?
  }

  predicate Ended(sh: Shared) { sh.ctl.cancelReturned || sh.ctl.terminalReturned }

  lemma NotStarting(sh: Shared)
    requires Glob(sh) && Ended(sh)
    ensures sh.ctl.gate != Starting
  {
  }

  /** Only a commit from Starting starts the handler, and what has returned has returned. */
  ghost predicate OnlyCommits(k: Control, k': Control) {
    && (k'.starts != k.starts ==> k.gate == Starting)
    && (k.cancelReturned ==> k'.cancelReturned) && (k.terminalReturned ==> k'.terminalReturned)
  }

  lemma DispatchCommits(sh: Shared, pc: DispatchPc, c: Choice)
    requires CanDispatch(sh, pc, c)
    ensures OnlyCommits(sh.ctl, DoDispatch(sh, pc, c).0.ctl)
  {
  }

  lemma ReactCommits(sh: Shared, pc: ReactPc, c: Choice)
    requires CanReact(sh, pc, c)
    ensures OnlyCommits(sh.ctl, DoReact(sh, pc, c).0.ctl)
  {
  }

  lemma WorkCommits(sh: Shared, t: Tid, pc: WorkPc, c: Choice)
    requires CanWork(sh, pc, c)
    ensures OnlyCommits(sh.ctl, DoWork(sh, t, pc, c).0.ctl)
  {
    if pc.Writing? {
      assert DoWrite(sh, pc.p, c).0.ctl == sh.ctl;
    }
  }

  lemma NeverStarts(s: State, e: ServerDispatch.Event)
    requires Inv(s) && Enabled(s, e) && Ended(s.sh) && s.sh.ctl.starts == 0
    ensures Ended(Step(s, e).sh) && Step(s, e).sh.ctl.starts == 0
  {
    NotStarting(s.sh);
    match s.threads[e.t]
    case Dispatching(d) => DispatchCommits(s.sh, d, e.c);
    case Reacting(r) => ReactCommits(s.sh, r, e.c);
    case Working(w) => WorkCommits(s.sh, e.t, w, e.c);
  }

  /** Once OnCancel or OnTerminal has returned with the handler not started, it never starts,
      even if the event came before the observers were installed. */
  lemma {:induction false} StoppedStaysStopped(ss: seq<State>, es: seq<ServerDispatch.Event>, i: nat, j: nat)
    requires IsRun(ss, es) && i <= j < |ss|
    requires Ended(ss[i].sh) && ss[i].sh.ctl.starts == 0
    ensures Ended(ss[j].sh) && ss[j].sh.ctl.starts == 0
  {
    if i < j {
      StoppedStaysStopped(ss, es, i, j - 1);
      RunKeeps(ss, es, j - 1);
      assert Follows(ss, es, j - 1);
      NeverStarts(ss[j - 1], es[j - 1]);
    }
  }

  // ------------------------------------------------------------------- single response

  lemma BegunStep(s: State, e: ServerDispatch.Event, s': State)
    requires Inv(s) && Enabled(s, e) && s' == Step(s, e) && s.sh.ctl.begun.Some?
    ensures s'.sh.ctl.begun == s.sh.ctl.begun
  {
    match s.threads[e.t]
    case Dispatching(d) => DispatchSilent(s.sh, d, e.c);
    case Reacting(r) => ReactSilent(s.sh, r, e.c);
    case Working(w) => BegunMoves(s.sh, e.t, w, e.c);
  }

  lemma {:induction false} BegunStays(ss: seq<State>, es: seq<ServerDispatch.Event>, j: nat, k: nat)
    requires IsRun(ss, es) && j <= k < |ss| && ss[j].sh.ctl.begun.Some?
    ensures ss[k].sh.ctl.begun == ss[j].sh.ctl.begun
  {
    if j < k {
      BegunStays(ss, es, j, k - 1);
      RunKeeps(ss, es, k - 1);
      assert Follows(ss, es, k - 1);
      BegunStep(ss[k - 1], es[k - 1], ss[k]);
    }
  }

  lemma OneResponseTrace(sh: Shared, response: string)
    requires Glob(sh) && !sh.streaming && Finished(sh.trace) && sh.trace.last == Trailers(OK)
    requires sh.writes == [Written(response, true)]
    ensures AsSeq(sh.trace) == [InitialMetadata, Message(response), Trailers(OK)]
  {
    calc {
      AsSeq(sh.trace);
      AsSeq(Then(Then(Nil, InitialMetadata), Message(response))) + [Trailers(OK)];
      AsSeq(Then(Nil, InitialMetadata)) + [Message(response)] + [Trailers(OK)];
      [InitialMetadata, Message(response), Trailers(OK)];
    }
  }

  lemma OkResponse(ss: seq<State>, es: seq<ServerDispatch.Event>, k: nat) returns (i: nat, st: Status, response: string)
    requires IsRun(ss, es) && k < |ss| && !ss[k].sh.streaming
    requires Finished(ss[k].sh.trace) && ss[k].sh.trace.last == Trailers(OK)
    ensures i < k && es[i].c == Returned(st, response) && st.IsOk() && ss[k].sh.ctl.begun == Some(es[i].t)
    ensures AsSeq(ss[k].sh.trace) == [InitialMetadata, Message(response), Trailers(OK)]
  {
    var j;
    j, i, st, response := OkIsReturned(ss, es, k);
    RunKeeps(ss, es, j + 1);
    BegunStays(ss, es, j, k);
    KindStaysOn(ss, es, j, k);
    KindStaysOn(ss, es, j + 1, k);
    OneResponseTrace(ss[j + 1].sh, response);
  }

  lemma OkFlags(sh: Shared)
    requires Glob(sh) && !sh.streaming && Finished(sh.trace) && sh.trace.last == Trailers(OK)
    ensures !sh.failed && !sh.ctl.rejected && sh.ctl.stage == 5 && sh.ctl.starts == 1
  {
  }

  /** Unary and client-streaming calls: a trace that ends in OK is initial metadata, the response
      the handler returned together with OK, on the thread that began it, and trailers; the call
      was admitted and accepted by the executor, and nothing failed on the way. */
  lemma OkIsOneResponse(ss: seq<State>, es: seq<ServerDispatch.Event>, k: nat)
    requires IsRun(ss, es) && k < |ss|
    requires !ss[k].sh.streaming && AsSeq(ss[k].sh.trace) != []
    requires AsSeq(ss[k].sh.trace)[|AsSeq(ss[k].sh.trace)| - 1] == Trailers(OK)
    ensures exists i, st: Status, response ::
              && 0 <= i < k && ss[k].sh.ctl.begun == Some(es[i].t)
              && es[i].c == Returned(st, response) && st.IsOk()
              && AsSeq(ss[k].sh.trace) == [InitialMetadata, Message(response), Trailers(OK)]
    ensures !ss[k].sh.failed && !ss[k].sh.ctl.rejected && ss[k].sh.ctl.stage == 5 && ss[k].sh.ctl.starts == 1
  {
    RunKeeps(ss, es, k);
    OrderedIsGrammar(ss[k].sh.trace);
    OkFlags(ss[k].sh);
    var i, st, response := OkResponse(ss, es, k);
  }

  lemma {:induction false} KindStaysOn(ss: seq<State>, es: seq<ServerDispatch.Event>, j: nat, k: nat)
    requires IsRun(ss, es) && j <= k < |ss|
    ensures ss[k].sh.streaming == ss[j].sh.streaming
  {
    if j < k {
      KindStaysOn(ss, es, j, k - 1);
      RunKeeps(ss, es, k - 1);
      assert Follows(ss, es, k - 1);
      KindStays(ss[k - 1], es[k - 1], ss[k]);
    }
  }
}
