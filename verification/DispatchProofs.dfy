/** What every step of a synchronous server call keeps, over all interleavings. */
module DispatchProofs {
  import opened Statuses
  import opened TypedCall
  import opened ServerDispatch

  // ---------------------------------------------------------------------- invariants

  predicate Settled(g: Gate) { g == Running || g == Stopped }

  /** The transport's view and the workers' view of the response agree. */
  ghost predicate Book(c: Call, t: Trace, ws: seq<Written>, closing: bool) {
    Tracked(c, t) && Messages(t) == Accepted(ws) && (c.finishSubmitted ==> closing)
  }

  /** Where the gate is, and who took it there. */
  ghost predicate Gated(k: Control, failed: bool, quiet: bool) {
    && (k.gate == Running <==> k.starts == 1) && k.starts <= 1
    && (k.gate == Queued ==> k.begun.None?)
    && (k.gate == Starting ==> k.begun.Some?)
    && (k.begun.None? ==> k.starts == 0)
    && (k.begun.Some? ==> k.anyRun)
    && (k.anyRun ==> k.submitted && !k.rejected)
    && (k.submitted ==> k.stage == 5) && (k.rejected ==> k.submitted)
    && (k.starts == 0 ==> quiet && !failed)
  }

  /** An event that has been observed, or will be, has closed the gate to a late start. */
  ghost predicate Observed(k: Control, c: Call) {
    && (k.stage >= 3 && !c.cancelled && !c.terminal ==> c.watchCancel)
    && (k.stage >= 5 && !c.terminal ==> c.watchTerminal)
    && (c.cancelled && k.stage >= 3 && !k.pendingStop ==> Settled(k.gate))
    && (c.terminal && k.stage >= 5 && !k.pendingStop ==> Settled(k.gate))
    && (k.cancelReturned ==> c.cancelled && (k.stage >= 3 ==> Settled(k.gate)))
    && (k.terminalReturned ==> c.terminal && (k.stage >= 5 ==> Settled(k.gate)))
    && (k.gate == Stopped ==> c.cancelled || c.terminal || k.rejected)
  }

  predicate OneResponse(ws: seq<Written>) { |ws| == 1 && ws[0].accepted }

  ghost predicate OkMeans(streaming: bool, failed: bool, ws: seq<Written>, t: Trace) {
    !streaming && t.Then? && t.last == Trailers(OK) ==>
      && !failed
      && OneResponse(ws)
      && t == Then(Then(Then(Nil, InitialMetadata), Message(ws[0].payload)), Trailers(OK))
  }

  ghost predicate Glob(sh: Shared) {
    && Book(sh.call, sh.trace, sh.writes, sh.net.closing)
    && Gated(sh.ctl, sh.failed, sh.writes == [])
    && Observed(sh.ctl, sh.call)
    && OkMeans(sh.streaming, sh.failed, sh.writes, sh.trace)
  }

  /** `t` runs the handler. */
  predicate Runs(k: Control, t: Tid) {
    k.begun == Some(t) && k.starts == 1 && k.gate == Running
  }

  ghost predicate LocDispatch(k: Control, c: Call, pc: DispatchPc) {
    match pc
    case Admit => k.stage == 0
    case Refuse(status) => k.stage == 0 && !status.IsOk()
    case SetCancelObserver => k.stage == 1
    case StopForCancel => k.stage == 2 && c.cancelled
    case SetTerminalObserver => k.stage == 3
    case StopForTerminal => k.stage == 4 && c.terminal
    case Submit => k.stage == 5 && !k.submitted && !k.rejected
    case Submitting => k.stage == 5 && k.submitted && !k.rejected
    case StopRejected => k.stage == 5 && k.rejected
    case RefuseRejected => k.stage == 5 && k.rejected
    case Dispatched => true
  }

  ghost predicate LocReact(k: Control, c: Call, inFlight: bool, pc: ReactPc) {
    match pc
    case Idle => !k.pendingStop && !inFlight
    case CancelRun(stop) => c.cancelled && k.pendingStop == stop && !inFlight
    case TerminalRun(stop) => c.terminal && k.pendingStop == stop && !inFlight
    case WritableRun(found) => !k.pendingStop && inFlight == found
    case Reject(status) => !k.pendingStop && !inFlight && !status.IsOk()
  }

  /** `responding`: the handler has not failed and, if it gives one response, has sent none. */
  ghost predicate LocWork(k: Control, streaming: bool, responding: bool, one: bool, t: Tid, pc: WorkPc) {
    match pc
    case Worker => true
    case Begin => k.anyRun
    case Commit => k.begun == Some(t) && k.starts == 0
    case WorkerDone => true
    case HandlerReject(_, status) => Runs(k, t) && responding && !status.IsOk()
    case Handler(_) => Runs(k, t) && responding
    case Check(_, _, _) => Runs(k, t) && responding
    case SendMetadata(_, _, _) => Runs(k, t) && responding
    case Final(_, _) => Runs(k, t) && responding
    case Respond(_) => Runs(k, t) && responding && !streaming
    case Close(status) => Runs(k, t) && (!streaming && status.IsOk() ==> one)
    case Writing(_) => Runs(k, t) && responding && streaming
  }

  predicate Responding(sh: Shared) { !sh.failed && (sh.streaming || sh.writes == []) }

  predicate Responded(sh: Shared) { !sh.failed && OneResponse(sh.writes) }

  ghost predicate Loc(sh: Shared, t: Tid, pc: Pc) {
    match pc
    case Dispatching(d) => t == sh.dispatcher && LocDispatch(sh.ctl, sh.call, d)
    case Reacting(r) => t != sh.dispatcher && t == sh.reactor && LocReact(sh.ctl, sh.call, sh.net.inFlight, r)
    case Working(w) => t != sh.dispatcher && t != sh.reactor && LocWorker(sh, t, w)
  }

  ghost predicate LocWorker(sh: Shared, t: Tid, pc: WorkPc) {
    LocWork(sh.ctl, sh.streaming, Responding(sh), Responded(sh), t, pc)
  }

  ghost predicate Inv(s: State) {
    Glob(s.sh) && forall t | t in s.threads :: Loc(s.sh, t, s.threads[t])
  }

  // --------------------------------------------------------- what a step leaves alone

  ghost predicate SameRoles(sh: Shared, sh': Shared) {
    sh'.streaming == sh.streaming && sh'.dispatcher == sh.dispatcher && sh'.reactor == sh.reactor
  }

  /** What the dispatching thread relies on. */
  ghost predicate ForDispatcher(sh: Shared, sh': Shared) {
    && sh'.ctl.stage == sh.ctl.stage && sh'.ctl.submitted == sh.ctl.submitted
    && sh'.ctl.rejected == sh.ctl.rejected
    && (sh.call.cancelled ==> sh'.call.cancelled) && (sh.call.terminal ==> sh'.call.terminal)
  }

  /** What the reactor relies on. */
  ghost predicate ForReactor(sh: Shared, sh': Shared) {
    && sh'.ctl.pendingStop == sh.ctl.pendingStop && sh'.net.inFlight == sh.net.inFlight
    && sh'.call.cancelled == sh.call.cancelled && sh'.call.terminal == sh.call.terminal
  }

  /** What the executor threads other than `t` rely on. */
  ghost predicate ForWorkers(sh: Shared, sh': Shared, t: Tid) {
    && (sh.ctl.anyRun ==> sh'.ctl.anyRun)
    && (sh.ctl.begun.Some? && sh.ctl.begun != Some(t) ==>
          && sh'.ctl.begun == sh.ctl.begun && sh'.ctl.starts == sh.ctl.starts
          && (sh.ctl.starts == 1 ==> sh'.ctl.gate == sh.ctl.gate)
          && sh'.writes == sh.writes && sh'.failed == sh.failed)
  }

  lemma DispatcherStable(sh: Shared, sh': Shared, pc: DispatchPc)
    requires ForDispatcher(sh, sh') && LocDispatch(sh.ctl, sh.call, pc)
    ensures LocDispatch(sh'.ctl, sh'.call, pc)
  {
  }

  lemma ReactorStable(sh: Shared, sh': Shared, pc: ReactPc)
    requires ForReactor(sh, sh') && LocReact(sh.ctl, sh.call, sh.net.inFlight, pc)
    ensures LocReact(sh'.ctl, sh'.call, sh'.net.inFlight, pc)
  {
  }

  lemma WorkerStable(sh: Shared, sh': Shared, t: Tid, u: Tid, pc: WorkPc)
    requires SameRoles(sh, sh') && ForWorkers(sh, sh', t) && u != t
    requires Gated(sh.ctl, sh.failed, sh.writes == []) && LocWorker(sh, u, pc)
    ensures LocWorker(sh', u, pc)
  {
  }

  // ----------------------------------------------------------------- taking a command

  lemma AcceptedAfter(ws: seq<Written>, w: Written)
    ensures Accepted(ws + [w]) == Accepted(ws) + (if w.accepted then [w.payload] else [])
  {
    assert (ws + [w])[..|ws + [w]| - 1] == ws;
  }

  lemma OneAccepted(ws: seq<Written>)
    requires OneResponse(ws)
    ensures Accepted(ws) == [ws[0].payload]
  {
    assert ws == [] + [ws[0]];
    AcceptedAfter([], ws[0]);
  }

  lemma OneMessage(t: Trace, m: string)
    requires Ordered(t) && !Finished(t) && Messages(t) == [m]
    ensures t == Then(Then(Nil, InitialMetadata), Message(m))
  {
    if t.last.Message? {
      var s := Messages(t.init);
      assert |s + [t.last.payload]| == |s| + 1;
      assert (s + [t.last.payload])[0] == m;
      NoMessage(t.init);
    }
  }

  lemma NoMessage(t: Trace)
    requires Ordered(t) && !Finished(t) && |Messages(t)| == 0
    ensures t == Nil || t == Then(Nil, InitialMetadata)
  {
  }

  /** Taking the reply to any command. */
  ghost predicate Takes(sh: Shared, r: Reply, sh': Shared) {
    && Commanded(sh.call, sh.trace, r)
    && sh' == sh.(call := r.call, trace := r.trace, net := sh'.net)
    && sh'.net.inFlight == sh.net.inFlight
    && sh'.net.closing == (sh.net.closing || r.call.finishSubmitted)
  }

  lemma TakesFrames(sh: Shared, r: Reply, sh': Shared)
    requires Takes(sh, r, sh')
    ensures SameRoles(sh, sh') && ForDispatcher(sh, sh') && ForReactor(sh, sh')
    ensures forall t :: ForWorkers(sh, sh', t)
  {
  }

  lemma TakesKeeps(sh: Shared, r: Reply, sh': Shared)
    requires Glob(sh) && Takes(sh, r, sh')
    ensures Observed(sh'.ctl, sh'.call)
    ensures Messages(r.trace) == Messages(sh.trace) ==> Book(sh'.call, sh'.trace, sh'.writes, sh'.net.closing)
    ensures r.call.finishSubmitted == sh.call.finishSubmitted ==>
              OkMeans(sh'.streaming, sh'.failed, sh'.writes, sh'.trace)
  {
  }

  lemma FinishTakes(sh: Shared, status: Status, a: ErrorCode, b: ErrorCode)
    requires Glob(sh)
    requires !sh.streaming && status.IsOk() ==> Responded(sh)
    ensures var sh' := TookFinish(sh, status, a, b);
            Glob(sh') && Takes(sh, Finish(sh.call, sh.trace, status.code, a, b), sh')
  {
    var r := Finish(sh.call, sh.trace, status.code, a, b);
    FinishTracked(sh.call, sh.trace, status.code, a, b);
    FinishGlob(sh, status, r);
  }

  /** The commands, with everything the other threads rely on. */
  ghost predicate Sound(sh: Shared, sh': Shared) {
    && Glob(sh') && SameRoles(sh, sh') && ForDispatcher(sh, sh') && ForReactor(sh, sh')
    && sh'.ctl == sh.ctl && sh'.failed == sh.failed && sh'.writes == sh.writes
  }

  lemma FinishKeeps(sh: Shared, status: Status, a: ErrorCode, b: ErrorCode)
    requires Glob(sh)
    requires !sh.streaming && status.IsOk() ==> Responded(sh)
    ensures Sound(sh, TookFinish(sh, status, a, b))
  {
    FinishTakes(sh, status, a, b);
  }

  lemma MetadataKeeps(sh: Shared, a: ErrorCode)
    requires Glob(sh)
    ensures Sound(sh, Took(sh, SendInitialMetadata(sh.call, sh.trace, a)))
  {
    MetadataTakes(sh, a);
  }

  lemma SendKeeps(sh: Shared, m: string, a: ErrorCode, b: ErrorCode)
    requires Glob(sh) && Send(sh.call, sh.trace, m, a, b).error != Ok
    ensures Sound(sh, TookSend(sh, m, a, b))
  {
    SendTakes(sh, m, a, b);
    TakesKeeps(sh, Send(sh.call, sh.trace, m, a, b), TookSend(sh, m, a, b));
  }

  lemma FinishGlob(sh: Shared, status: Status, r: Reply)
    requires Glob(sh) && Commanded(sh.call, sh.trace, r)
    requires Messages(r.trace) == Messages(sh.trace) && r.call.writable == sh.call.writable
    requires r.call.finishSubmitted && !sh.call.finishSubmitted ==> r.trace.Then? && r.trace.last == Trailers(status.code)
    requires !sh.streaming && status.IsOk() ==> Responded(sh)
    ensures Glob(Took(sh, r)) && Takes(sh, r, Took(sh, r))
  {
    var sh' := Took(sh, r);
    TakesKeeps(sh, r, sh');
    if r.call.finishSubmitted && !sh.call.finishSubmitted {
      FinishMeans(sh, status, r.trace);
    }
  }

  lemma FinishMeans(sh: Shared, status: Status, t: Trace)
    requires Messages(t) == Accepted(sh.writes) && Ordered(t)
    requires t.Then? && t.last == Trailers(status.code)
    requires !sh.streaming && status.IsOk() ==> Responded(sh)
    ensures OkMeans(sh.streaming, sh.failed, sh.writes, t)
  {
    if !sh.streaming && status.IsOk() {
      OneAccepted(sh.writes);
      OneMessage(t.init, sh.writes[0].payload);
    }
  }

  lemma MetadataTakes(sh: Shared, a: ErrorCode)
    requires Glob(sh)
    ensures var r := SendInitialMetadata(sh.call, sh.trace, a);
            Glob(Took(sh, r)) && Takes(sh, r, Took(sh, r))
  {
    MetadataTracked(sh.call, sh.trace, a);
    TakesKeeps(sh, SendInitialMetadata(sh.call, sh.trace, a), Took(sh, SendInitialMetadata(sh.call, sh.trace, a)));
  }

  lemma SendTakes(sh: Shared, m: string, a: ErrorCode, b: ErrorCode)
    requires Tracked(sh.call, sh.trace)
    ensures var r := Send(sh.call, sh.trace, m, a, b);
            && Takes(sh, r, TookSend(sh, m, a, b))
            && r.call.finishSubmitted == sh.call.finishSubmitted
            && Messages(r.trace) == Messages(sh.trace) + (if r.error == Ok then [m] else [])
  {
    SendTracked(sh.call, sh.trace, m, a, b);
  }

  /** Recording the outcome of a write, after the command has been taken. */
  lemma WroteKeeps(sh: Shared, r: Reply, sh': Shared, t: Tid, m: string, ok: bool)
    requires Glob(sh) && Takes(sh, r, sh') && r.call.finishSubmitted == sh.call.finishSubmitted
    requires Messages(r.trace) == Accepted(sh.writes) + (if ok then [m] else [])
    requires Runs(sh.ctl, t) && (sh.streaming || !sh.call.finishSubmitted)
    ensures Glob(Wrote(sh', m, ok)) && ForWorkers(sh, Wrote(sh', m, ok), t)
  {
    TakesKeeps(sh, r, sh');
    AcceptedAfter(sh.writes, Written(m, ok));
  }

  lemma SentRecorded(sh: Shared, t: Tid, m: string, a: ErrorCode, b: ErrorCode)
    requires Glob(sh) && Runs(sh.ctl, t) && Send(sh.call, sh.trace, m, a, b).error == Ok
    ensures var sh' := Wrote(TookSend(sh, m, a, b), m, true);
            && Glob(sh') && SameRoles(sh, sh') && ForDispatcher(sh, sh') && ForReactor(sh, sh')
            && ForWorkers(sh, sh', t)
  {
    var r, s1 := Send(sh.call, sh.trace, m, a, b), TookSend(sh, m, a, b);
    SendTakes(sh, m, a, b);
    TakesFrames(sh, r, s1);
    WroteKeeps(sh, r, s1, t, m, true);
  }

  lemma RefusalRecorded(sh: Shared, t: Tid, m: string)
    requires Glob(sh) && Runs(sh.ctl, t) && sh.streaming
    ensures Glob(Wrote(sh, m, false)) && ForWorkers(sh, Wrote(sh, m, false), t)
  {
    var r := Reply(sh.call, Ok, sh.trace);
    WroteKeeps(sh, r, sh, t, m, false);
  }

  // ---------------------------------------------------------------------------- steps

  /** Steps that send nothing: the response, its record and the transport stay. */
  ghost predicate ControlOnly(sh: Shared, sh': Shared) {
    && sh' == sh.(call := sh'.call, ctl := sh'.ctl)
    && sh'.call == sh.call.(cancelled := sh'.call.cancelled, terminal := sh'.call.terminal,
                            watchCancel := sh'.call.watchCancel, watchTerminal := sh'.call.watchTerminal)
  }

  lemma ControlKeeps(sh: Shared, sh': Shared)
    requires Glob(sh) && ControlOnly(sh, sh')
    requires Gated(sh'.ctl, sh'.failed, sh'.writes == []) && Observed(sh'.ctl, sh'.call)
    ensures Glob(sh')
  {
  }

  lemma DispatchGated(sh: Shared, pc: DispatchPc, c: Choice)
    requires !pc.Refuse? && !pc.RefuseRejected? && CanDispatch(sh, pc, c)
    requires LocDispatch(sh.ctl, sh.call, pc) && Gated(sh.ctl, sh.failed, sh.writes == [])
    ensures var sh' := DoDispatch(sh, pc, c).0;
            Gated(sh'.ctl, sh'.failed, sh.writes == [])
  {
  }

  lemma DispatchControl(sh: Shared, pc: DispatchPc, c: Choice)
    requires !pc.Refuse? && !pc.RefuseRejected? && CanDispatch(sh, pc, c)
    requires LocDispatch(sh.ctl, sh.call, pc) && Gated(sh.ctl, sh.failed, sh.writes == [])
    ensures var sh' := DoDispatch(sh, pc, c).0;
            ControlOnly(sh, sh')
  {
  }

  lemma DispatchObserved(sh: Shared, pc: DispatchPc, c: Choice)
    requires !pc.Refuse? && !pc.RefuseRejected? && CanDispatch(sh, pc, c)
    requires LocDispatch(sh.ctl, sh.call, pc)
    requires Gated(sh.ctl, sh.failed, sh.writes == []) && Observed(sh.ctl, sh.call)
    ensures var (sh', pc') := DoDispatch(sh, pc, c);
            Observed(sh'.ctl, sh'.call) && LocDispatch(sh'.ctl, sh'.call, pc')
  {
  }

  lemma DispatchFrames(sh: Shared, t: Tid, pc: DispatchPc, c: Choice)
    requires !pc.Refuse? && !pc.RefuseRejected? && CanDispatch(sh, pc, c)
    requires LocDispatch(sh.ctl, sh.call, pc) && Gated(sh.ctl, sh.failed, sh.writes == [])
    ensures var sh' := DoDispatch(sh, pc, c).0;
            SameRoles(sh, sh') && ForReactor(sh, sh') && ForWorkers(sh, sh', t)
  {
  }

  lemma DispatchKeeps(sh: Shared, t: Tid, pc: DispatchPc, c: Choice)
    requires CanDispatch(sh, pc, c) && Glob(sh) && LocDispatch(sh.ctl, sh.call, pc)
    ensures var (sh', pc') := DoDispatch(sh, pc, c);
            && Glob(sh') && SameRoles(sh, sh') && ForReactor(sh, sh') && ForWorkers(sh, sh', t)
            && LocDispatch(sh'.ctl, sh'.call, pc')
  {
    if pc.Refuse? || pc.RefuseRejected? {
      var status := if pc.Refuse? then pc.status else Status(RESOURCE_EXHAUSTED, Empty);
      FinishKeeps(sh, status, c.a, c.b);
    } else {
      DispatchGated(sh, pc, c);
      DispatchControl(sh, pc, c);
      DispatchObserved(sh, pc, c);
      DispatchFrames(sh, t, pc, c);
      ControlKeeps(sh, DoDispatch(sh, pc, c).0);
    }
  }

  lemma ReactGated(sh: Shared, pc: ReactPc, c: Choice)
    requires !pc.Reject? && !pc.WritableRun? && !c.FireWritable? && !c.CloseNet?
    requires CanReact(sh, pc, c) && LocReact(sh.ctl, sh.call, sh.net.inFlight, pc)
    requires Gated(sh.ctl, sh.failed, sh.writes == [])
    ensures var sh' := DoReact(sh, pc, c).0;
            ControlOnly(sh, sh') && Gated(sh'.ctl, sh'.failed, sh'.writes == [])
  {
  }

  lemma ReactObserved(sh: Shared, pc: ReactPc, c: Choice)
    requires !pc.Reject? && !pc.WritableRun? && !c.FireWritable? && !c.CloseNet?
    requires CanReact(sh, pc, c) && LocReact(sh.ctl, sh.call, sh.net.inFlight, pc)
    requires Observed(sh.ctl, sh.call)
    ensures var sh' := DoReact(sh, pc, c).0; Observed(sh'.ctl, sh'.call)
  {
  }

  lemma ReactLocal(sh: Shared, pc: ReactPc, c: Choice)
    requires !pc.Reject? && !pc.WritableRun? && !c.FireWritable? && !c.CloseNet?
    requires CanReact(sh, pc, c) && LocReact(sh.ctl, sh.call, sh.net.inFlight, pc)
    ensures var (sh', pc') := DoReact(sh, pc, c); LocReact(sh'.ctl, sh'.call, sh'.net.inFlight, pc')
  {
  }

  lemma ReactFrames(sh: Shared, t: Tid, pc: ReactPc, c: Choice)
    requires !pc.Reject? && CanReact(sh, pc, c) && Gated(sh.ctl, sh.failed, sh.writes == [])
    ensures var sh' := DoReact(sh, pc, c).0;
            SameRoles(sh, sh') && ForDispatcher(sh, sh') && ForWorkers(sh, sh', t)
  {
  }

  /** The transport closes, or delivers on_writable. */
  lemma NetKeeps(sh: Shared, pc: ReactPc, c: Choice)
    requires CanReact(sh, pc, c) && Glob(sh) && LocReact(sh.ctl, sh.call, sh.net.inFlight, pc)
    requires c.FireWritable? || c.CloseNet? || pc.WritableRun?
    ensures var (sh', pc') := DoReact(sh, pc, c);
            Glob(sh') && LocReact(sh'.ctl, sh'.call, sh'.net.inFlight, pc')
  {
  }

  lemma ReactKeeps(sh: Shared, t: Tid, pc: ReactPc, c: Choice)
    requires CanReact(sh, pc, c) && Glob(sh) && LocReact(sh.ctl, sh.call, sh.net.inFlight, pc)
    ensures var (sh', pc') := DoReact(sh, pc, c);
            && Glob(sh') && SameRoles(sh, sh') && ForDispatcher(sh, sh') && ForWorkers(sh, sh', t)
            && LocReact(sh'.ctl, sh'.call, sh'.net.inFlight, pc')
  {
    if pc.Reject? {
      FinishKeeps(sh, pc.status, c.a, c.b);
    } else {
      ReactFrames(sh, t, pc, c);
      if c.FireWritable? || c.CloseNet? || pc.WritableRun? {
        NetKeeps(sh, pc, c);
      } else {
        ReactGated(sh, pc, c);
        ReactObserved(sh, pc, c);
        ReactLocal(sh, pc, c);
        ControlKeeps(sh, DoReact(sh, pc, c).0);
      }
    }
  }

  /** What a step of executor thread `t` keeps. */
  ghost predicate Stepped(sh: Shared, sh': Shared, t: Tid) {
    Glob(sh') && SameRoles(sh, sh') && ForDispatcher(sh, sh') && ForReactor(sh, sh') && ForWorkers(sh, sh', t)
  }

  /** A step that takes a command, or nothing. */
  lemma SoundSteps(sh: Shared, sh': Shared, t: Tid, pc: WorkPc)
    requires Sound(sh, sh') && LocWorker(sh, t, pc)
    ensures Stepped(sh, sh', t) && LocWorker(sh', t, pc)
  {
  }

  lemma RefusalSteps(sh: Shared, t: Tid, m: string, im: bool)
    requires Glob(sh) && Runs(sh.ctl, t) && sh.streaming && !sh.failed
    ensures Stepped(sh, Wrote(sh, m, false), t) && LocWorker(Wrote(sh, m, false), t, Handler(im))
  {
    RefusalRecorded(sh, t, m);
  }

  lemma WriteSendKeeps(sh: Shared, t: Tid, pc: WritePc, c: Choice)
    requires pc.WriteSend? && CanWrite(sh, pc, c) && Glob(sh) && LocWorker(sh, t, Writing(pc))
    ensures var (sh', pc') := DoWrite(sh, pc, c);
            Stepped(sh, sh', t) && LocWorker(sh', t, pc')
  {
    var (sh', pc') := DoWrite(sh, pc, c);
    if !c.ok {
      FinishKeeps(sh, Status(INTERNAL, Empty), c.a, c.b);
      SoundSteps(sh, TookFinish(sh, Status(INTERNAL, Empty), c.a, c.b), t, pc');
    } else if Send(sh.call, sh.trace, pc.m, c.a, c.b).error == Ok {
      SentSteps(sh, t, pc.m, c.a, c.b, pc.im);
    } else {
      SendKeeps(sh, pc.m, c.a, c.b);
      SoundSteps(sh, TookSend(sh, pc.m, c.a, c.b), t, pc');
    }
  }

  lemma SentSteps(sh: Shared, t: Tid, m: string, a: ErrorCode, b: ErrorCode, im: bool)
    requires Glob(sh) && Runs(sh.ctl, t) && sh.streaming && !sh.failed
    requires Send(sh.call, sh.trace, m, a, b).error == Ok
    ensures var sh' := Wrote(TookSend(sh, m, a, b), m, true);
            Stepped(sh, sh', t) && LocWorker(sh', t, Handler(im))
  {
    SentRecorded(sh, t, m, a, b);
  }

  lemma WriteKeeps(sh: Shared, t: Tid, pc: WritePc, c: Choice)
    requires CanWrite(sh, pc, c) && Glob(sh) && LocWorker(sh, t, Writing(pc))
    ensures var (sh', pc') := DoWrite(sh, pc, c);
            Stepped(sh, sh', t) && LocWorker(sh', t, pc')
  {
    var (sh', pc') := DoWrite(sh, pc, c);
    if pc.WriteSend? {
      WriteSendKeeps(sh, t, pc, c);
    } else if pc.WriteMetadata? {
      MetadataKeeps(sh, c.b);
      SoundSteps(sh, sh', t, pc');
    } else if pc'.Writing? {
      SoundSteps(sh, sh, t, pc');
    } else {
      RefusalSteps(sh, t, pc.m, pc.im);
    }
  }

  /** The steps of a worker up to the handler. */
  lemma StartKeeps(sh: Shared, t: Tid, pc: WorkPc, c: Choice)
    requires pc.Worker? || pc.Begin? || pc.Commit?
    requires CanWork(sh, pc, c) && Glob(sh) && LocWorker(sh, t, pc)
    ensures var (sh', pc') := DoWork(sh, t, pc, c);
            Stepped(sh, sh', t) && LocWorker(sh', t, pc')
  {
    var (sh', pc') := DoWork(sh, t, pc, c);
    StartMoves(sh, t, pc, c);
    StartGated(sh.ctl, sh'.ctl, sh.call, t, sh.failed, sh.writes == []);
    ControlKeeps(sh, sh.(ctl := sh'.ctl));
    StartFrames(sh, sh'.ctl, t);
  }

  lemma StartMoves(sh: Shared, t: Tid, pc: WorkPc, c: Choice)
    requires pc.Worker? || pc.Begin? || pc.Commit?
    requires CanWork(sh, pc, c) && LocWorker(sh, t, pc) && Gated(sh.ctl, sh.failed, sh.writes == [])
    ensures var (sh', pc') := DoWork(sh, t, pc, c);
            sh' == sh.(ctl := sh'.ctl) && StartMove(sh.ctl, sh'.ctl, t) && LocWorker(sh', t, pc')
  {
  }

  lemma StartFrames(sh: Shared, k': Control, t: Tid)
    requires Gated(sh.ctl, sh.failed, sh.writes == [])
    requires StartMove(sh.ctl, k', t)
    ensures var sh' := sh.(ctl := k');
            SameRoles(sh, sh') && ForDispatcher(sh, sh') && ForReactor(sh, sh') && ForWorkers(sh, sh', t)
  {
  }

  /** A worker arrives, or moves the gate forward. */
  ghost predicate StartMove(k: Control, k': Control, t: Tid) {
    || (k' == k.(anyRun := true) && k.submitted && !k.rejected)
    || (k' == k.(gate := Starting, begun := Some(t)) && k.gate == Queued && k.anyRun)
    || (k' == k.(gate := Running, starts := k.starts + 1) && k.gate == Starting && k.begun == Some(t))
    || k' == k
  }

  lemma StartGated(k: Control, k': Control, c: Call, t: Tid, failed: bool, quiet: bool)
    requires Gated(k, failed, quiet) && Observed(k, c) && StartMove(k, k', t)
    ensures Gated(k', failed, quiet) && Observed(k', c)
  {
  }

  /** The dispatch code gives up and finishes with an error. */
  lemma FailureSteps(sh: Shared, sh': Shared, t: Tid, status: Status)
    requires Sound(sh, sh') && Runs(sh.ctl, t) && Responding(sh) && !status.IsOk()
    ensures Stepped(sh, sh'.(failed := true), t) && LocWorker(sh'.(failed := true), t, Close(status))
  {
    NotYetOk(sh');
  }

  lemma NotYetOk(sh: Shared)
    requires Glob(sh) && Responding(sh)
    ensures OkMeans(sh.streaming, true, sh.writes, sh.trace)
  {
  }

  lemma SendMetadataKeeps(sh: Shared, t: Tid, pc: WorkPc, c: Choice)
    requires pc.SendMetadata? && CanWork(sh, pc, c) && Glob(sh) && LocWorker(sh, t, pc)
    ensures var (sh', pc') := DoWork(sh, t, pc, c);
            Stepped(sh, sh', t) && LocWorker(sh', t, pc')
  {
    var r := SendInitialMetadata(sh.call, sh.trace, c.b);
    MetadataKeeps(sh, c.b);
    if pc.im {
      SoundSteps(sh, sh, t, Final(pc.status, pc.response));
    } else if c.a != Ok {
      FailureSteps(sh, sh, t, Status(INTERNAL, Empty));
    } else if r.error == Ok {
      SoundSteps(sh, Took(sh, r), t, Final(pc.status, pc.response));
    } else {
      FailureSteps(sh, Took(sh, r), t, Status(INTERNAL, Empty));
    }
  }

  lemma FinalKeeps(sh: Shared, t: Tid, pc: WorkPc, c: Choice)
    requires pc.Final? && CanWork(sh, pc, c) && Glob(sh) && LocWorker(sh, t, pc)
    ensures var (sh', pc') := DoWork(sh, t, pc, c);
            Stepped(sh, sh', t) && LocWorker(sh', t, pc')
  {
    var (sh', pc') := DoWork(sh, t, pc, c);
    if sh' == sh {
      SoundSteps(sh, sh, t, pc');
    } else {
      FailureSteps(sh, sh, t, Status(INTERNAL, Empty));
    }
  }

  lemma RespondKeeps(sh: Shared, t: Tid, pc: WorkPc, c: Choice)
    requires pc.Respond? && CanWork(sh, pc, c) && Glob(sh) && LocWorker(sh, t, pc)
    ensures var (sh', pc') := DoWork(sh, t, pc, c);
            Stepped(sh, sh', t) && LocWorker(sh', t, pc')
  {
    var r := Send(sh.call, sh.trace, pc.response, c.a, c.b);
    if r.error == Ok {
      SentRecorded(sh, t, pc.response, c.a, c.b);
    } else {
      SendKeeps(sh, pc.response, c.a, c.b);
      FailureSteps(sh, TookSend(sh, pc.response, c.a, c.b), t, SendErrorStatus(r.error));
    }
  }

  lemma WorkKeeps(sh: Shared, t: Tid, pc: WorkPc, c: Choice)
    requires CanWork(sh, pc, c) && Glob(sh) && LocWorker(sh, t, pc)
    ensures var (sh', pc') := DoWork(sh, t, pc, c);
            Stepped(sh, sh', t) && LocWorker(sh', t, pc')
  {
    var (sh', pc') := DoWork(sh, t, pc, c);
    match pc {
      case Worker => StartKeeps(sh, t, pc, c);
      case Begin => StartKeeps(sh, t, pc, c);
      case Commit => StartKeeps(sh, t, pc, c);
      case Writing(p) => WriteKeeps(sh, t, p, c);
      case SendMetadata(_, _, _) => SendMetadataKeeps(sh, t, pc, c);
      case Final(_, _) => FinalKeeps(sh, t, pc, c);
      case Respond(_) => RespondKeeps(sh, t, pc, c);
      case Close(status) =>
        FinishKeeps(sh, status, c.a, c.b);
        SoundSteps(sh, sh', t, pc');
      case HandlerReject(_, status) =>
        FinishKeeps(sh, status, c.a, c.b);
        SoundSteps(sh, sh', t, pc');
      case _ => SoundSteps(sh, sh, t, pc');
    }
  }

  ghost predicate Rely(sh: Shared, sh': Shared, t: Tid) {
    && SameRoles(sh, sh')
    && (t != sh.dispatcher ==> ForDispatcher(sh, sh'))
    && (t == sh.dispatcher || t != sh.reactor ==> ForReactor(sh, sh'))
    && ForWorkers(sh, sh', t)
  }

  lemma OwnStep(sh: Shared, t: Tid, pc: Pc, c: Choice)
    requires Glob(sh) && Loc(sh, t, pc) && Can(sh, pc, c)
    ensures var (sh', pc') := Do(sh, t, pc, c);
            Glob(sh') && Rely(sh, sh', t) && Loc(sh', t, pc')
  {
    match pc
    case Dispatching(d) => DispatchKeeps(sh, t, d, c);
    case Reacting(r) => ReactKeeps(sh, t, r, c);
    case Working(w) => WorkKeeps(sh, t, w, c);
  }

  lemma RelyStable(sh: Shared, sh': Shared, t: Tid, u: Tid, pc: Pc)
    requires Glob(sh) && Rely(sh, sh', t) && u != t && Loc(sh, u, pc)
    ensures Loc(sh', u, pc)
  {
    match pc
    case Dispatching(d) => DispatcherStable(sh, sh', d);
    case Reacting(r) => ReactorStable(sh, sh', r);
    case Working(w) => WorkerStable(sh, sh', t, u, w);
  }

  lemma StepKeeps(s: State, e: ServerDispatch.Event)
    requires Inv(s) && Enabled(s, e)
    ensures Inv(Step(s, e)) && Rely(s.sh, Step(s, e).sh, e.t)
  {
    var (sh', pc') := Do(s.sh, e.t, s.threads[e.t], e.c);
    OwnStep(s.sh, e.t, s.threads[e.t], e.c);
    OthersKeep(s, e.t, sh', pc');
  }

  lemma OthersKeep(s: State, t: Tid, sh': Shared, pc': Pc)
    requires Inv(s) && t in s.threads && Glob(sh') && Rely(s.sh, sh', t) && Loc(sh', t, pc')
    ensures Inv(State(sh', s.threads[t := pc']))
  {
    forall u | u in s.threads && u != t ensures Loc(sh', u, s.threads[u]) {
      RelyStable(s.sh, sh', t, u, s.threads[u]);
    }
  }

  lemma {:induction false} RunKeeps(ss: seq<State>, es: seq<ServerDispatch.Event>, k: nat)
    requires IsRun(ss, es) && k < |ss|
    ensures Inv(ss[k])
  {
    if k > 0 {
      RunKeeps(ss, es, k - 1);
      assert Follows(ss, es, k - 1);
      StepKeeps(ss[k - 1], es[k - 1]);
    } else {
      assert ss[0].sh.trace == Nil && ss[0].sh.writes == [];
    }
  }
}
