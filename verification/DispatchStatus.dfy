/** Which status a server call ends with, over every run: the one that was announced by the
    event that led to the trailers, and what a handler returned unless sending it failed. */
module DispatchStatus {
  import opened Statuses
  import opened TypedCall
  import opened ServerDispatch
  import opened DispatchProofs

  // ------------------------------------------------------------ what a thread was told

  /** Choices that carry a status. */
  predicate Tells(c: Choice) { c.Admitted? || c.RejectRequest? || c.ResumeFailed? || c.Returned? }

  /** The last choice of thread `t` that carries a status. */
  function LastTold(es: seq<ServerDispatch.Event>, t: Tid): Option<Choice> {
    if es == [] then None
    else
      var e := es[|es| - 1];
      if e.t == t && Tells(e.c) then Some(e.c) else LastTold(es[..|es| - 1], t)
  }

  /** How the status `s` to close with follows from what the handler returned: it is the same, and
      OK only after the one response was accepted; after a mishap it is 8 or 13. */
  ghost predicate Settles(sh: Shared, told: Option<Choice>, code: StatusCode) {
    && told.Some? && told.value.Returned?
    && (if sh.failed then code == 8 || code == 13
        else
          && code == told.value.status.code
          && (!sh.streaming && code == 0 ==> sh.writes == [Written(told.value.response, true)]))
  }

  ghost predicate WorkOwes(sh: Shared, pc: WorkPc, told: Option<Choice>) {
    match pc
    case HandlerReject(_, status) => told == Some(ResumeFailed(status)) && status.code != 0
    case Check(status, response, _) => told == Some(Returned(status, response))
    case SendMetadata(status, response, _) => told == Some(Returned(status, response))
    case Final(status, response) => told == Some(Returned(status, response))
    case Respond(response) =>
      told.Some? && told.value.Returned? && told.value.response == response && told.value.status.code == 0
    case Close(status) => Settles(sh, told, status.code)
    case _ => true
  }

  /** A thread that is to finish the call does so with what it was told. */
  ghost predicate Owes(sh: Shared, pc: Pc, told: Option<Choice>) {
    match pc
    case Dispatching(d) =>
      && (d.Refuse? ==> told == Some(Admitted(d.status)) && d.status.code != 0)
      && (!d.Admit? ==> told.Some? && told.value.Admitted? && (sh.ctl.stage > 0 <==> told.value.status.code == 0))
    case Reacting(r) => r.Reject? ==> told == Some(RejectRequest(r.status)) && r.status.code != 0
    case Working(w) => WorkOwes(sh, w, told)
  }

  ghost predicate ToldNext(told: Option<Choice>, c: Choice, told': Option<Choice>) {
    told' == if Tells(c) then Some(c) else told
  }

  lemma DispatchOwes(sh: Shared, pc: DispatchPc, c: Choice, told: Option<Choice>, told': Option<Choice>)
    requires CanDispatch(sh, pc, c) && LocDispatch(sh.ctl, sh.call, pc)
    requires Owes(sh, Dispatching(pc), told) && ToldNext(told, c, told')
    ensures var (sh', pc') := DoDispatch(sh, pc, c); Owes(sh', Dispatching(pc'), told')
  {
  }

  lemma ReactOwes(sh: Shared, pc: ReactPc, c: Choice, told: Option<Choice>, told': Option<Choice>)
    requires CanReact(sh, pc, c) && ToldNext(told, c, told')
    ensures var (sh', pc') := DoReact(sh, pc, c); Owes(sh', Reacting(pc'), told')
  {
  }

  lemma WriteOwesNothing(sh: Shared, pc: WritePc, c: Choice)
    requires CanWrite(sh, pc, c)
    ensures var pc' := DoWrite(sh, pc, c).1; pc'.Handler? || pc'.Writing?
  {
  }

  lemma WorkStepOwes(sh: Shared, t: Tid, pc: WorkPc, c: Choice, told: Option<Choice>, told': Option<Choice>)
    requires CanWork(sh, pc, c) && LocWorker(sh, t, pc) && WorkOwes(sh, pc, told) && ToldNext(told, c, told')
    ensures var (sh', pc') := DoWork(sh, t, pc, c); WorkOwes(sh', pc', told')
  {
    if pc.Writing? {
      WriteOwesNothing(sh, pc.p, c);
    }
  }

  lemma OwnOwes(sh: Shared, t: Tid, pc: Pc, c: Choice, told: Option<Choice>, told': Option<Choice>)
    requires Can(sh, pc, c) && Loc(sh, t, pc) && Owes(sh, pc, told) && ToldNext(told, c, told')
    ensures var (sh', pc') := Do(sh, t, pc, c); Owes(sh', pc', told')
  {
    match pc
    case Dispatching(d) => DispatchOwes(sh, d, c, told, told');
    case Reacting(r) => ReactOwes(sh, r, c, told, told');
    case Working(w) => WorkStepOwes(sh, t, w, c, told, told');
  }

  /** Nobody else touches what the status of a closing thread rests on. */
  lemma OthersOwe(sh: Shared, sh': Shared, t: Tid, u: Tid, pc: Pc, told: Option<Choice>)
    requires Rely(sh, sh', t) && u != t && Loc(sh, u, pc) && Owes(sh, pc, told)
    ensures Owes(sh', pc, told)
  {
  }

  lemma OwesStep(s: State, e: ServerDispatch.Event, s': State, t: Tid, told: Option<Choice>, told': Option<Choice>)
    requires Inv(s) && Enabled(s, e) && s' == Step(s, e) && t in s.threads && Owes(s.sh, s.threads[t], told)
    requires if e.t == t then ToldNext(told, e.c, told') else told' == told
    ensures t in s'.threads && Owes(s'.sh, s'.threads[t], told')
  {
    assert Loc(s.sh, t, s.threads[t]);
    if e.t == t {
      OwnOwes(s.sh, t, s.threads[t], e.c, told, told');
    } else {
      StepKeeps(s, e);
      OthersOwe(s.sh, s'.sh, e.t, t, s.threads[t], told);
    }
  }

  lemma {:induction false} RunOwes(ss: seq<State>, es: seq<ServerDispatch.Event>, k: nat, t: Tid)
    requires IsRun(ss, es) && k < |ss| && t in ss[0].threads
    ensures t in ss[k].threads && Owes(ss[k].sh, ss[k].threads[t], LastTold(es[..k], t))
  {
    if k > 0 {
      RunOwes(ss, es, k - 1, t);
      RunKeeps(ss, es, k - 1);
      assert Follows(ss, es, k - 1);
      assert es[..k][..k - 1] == es[..k - 1];
      OwesStep(ss[k - 1], es[k - 1], ss[k], t, LastTold(es[..k - 1], t), LastTold(es[..k], t));
    }
  }

  /** The handler starts only in a call whose admission said OK. */
  lemma StartsOnlyAdmitted(ss: seq<State>, es: seq<ServerDispatch.Event>, k: nat)
    requires IsRun(ss, es) && k < |ss| && ss[0].sh.dispatcher in ss[0].threads && ss[k].sh.ctl.starts > 0
    ensures var told := LastTold(es[..k], ss[0].sh.dispatcher);
            told.Some? && told.value.Admitted? && told.value.status.code == 0
  {
    var d := ss[0].sh.dispatcher;
    RunKeeps(ss, es, k);
    RolesStay(ss, es, k);
    RunOwes(ss, es, k, d);
    assert Loc(ss[k].sh, d, ss[k].threads[d]);
  }

  lemma {:induction false} RolesStay(ss: seq<State>, es: seq<ServerDispatch.Event>, k: nat)
    requires IsRun(ss, es) && k < |ss|
    ensures ss[k].sh.dispatcher == ss[0].sh.dispatcher
    ensures forall t | t in ss[k].threads :: t == ss[0].sh.dispatcher <==> ss[k].threads[t].Dispatching?
  {
    if k > 0 {
      RolesStay(ss, es, k - 1);
      RunKeeps(ss, es, k - 1);
      assert Follows(ss, es, k - 1);
      StepKeeps(ss[k - 1], es[k - 1]);
    }
  }

  lemma {:induction false} ThreadsStay(ss: seq<State>, es: seq<ServerDispatch.Event>, k: nat, t: Tid)
    requires IsRun(ss, es) && k < |ss|
    ensures t in ss[k].threads <==> t in ss[0].threads
  {
    if k > 0 {
      ThreadsStay(ss, es, k - 1, t);
      assert Follows(ss, es, k - 1);
    }
  }

  // --------------------------------------------------------------------- the trailers

  /** The step `c` of a thread at `pc` may close the call with `code`. */
  ghost predicate ClosesWith(sh: Shared, pc: Pc, c: Choice, told: Option<Choice>, code: StatusCode) {
    match pc
    case Dispatching(Refuse(_)) => told.Some? && told.value.Admitted? && code == told.value.status.code != 0
    case Dispatching(RefuseRejected) => sh.ctl.rejected && code == 8
    case Reacting(Reject(_)) => told.Some? && told.value.RejectRequest? && code == told.value.status.code != 0
    case Working(HandlerReject(_, _)) => told.Some? && told.value.ResumeFailed? && code == told.value.status.code != 0
    case Working(Writing(WriteSend(_, _))) => c.Serialized? && !c.ok && code == 13
    case Working(Close(_)) => Settles(sh, told, code)
    case _ => false
  }

  /** The step puts trailers with `code` on the trace, and that is the first of them. */
  ghost predicate Ends(t: Trace, t': Trace, code: StatusCode) {
    !Finished(t) && t'.Then? && t'.last == Trailers(code)
  }

  lemma FinishEnds(c: Call, t: Trace, code: StatusCode, a: ErrorCode, b: ErrorCode, code': StatusCode)
    requires Tracked(c, t) && Ends(t, Finish(c, t, code, a, b).trace, code')
    ensures code' == code
  {
    FinishTracked(c, t, code, a, b);
  }

  lemma SendEndsNot(c: Call, t: Trace, m: string, a: ErrorCode, b: ErrorCode)
    requires Tracked(c, t) && !Finished(t)
    ensures !Finished(Send(c, t, m, a, b).trace) && !Finished(SendInitialMetadata(c, t, a).trace)
  {
  }

  lemma DispatchCloses(sh: Shared, pc: DispatchPc, c: Choice, told: Option<Choice>, code: StatusCode)
    requires CanDispatch(sh, pc, c) && Tracked(sh.call, sh.trace) && LocDispatch(sh.ctl, sh.call, pc)
    requires Owes(sh, Dispatching(pc), told) && Ends(sh.trace, DoDispatch(sh, pc, c).0.trace, code)
    ensures ClosesWith(sh, Dispatching(pc), c, told, code)
  {
    if pc.Refuse? {
      FinishEnds(sh.call, sh.trace, pc.status.code, c.a, c.b, code);
    } else if pc.RefuseRejected? {
      FinishEnds(sh.call, sh.trace, RESOURCE_EXHAUSTED, c.a, c.b, code);
    }
  }

  lemma ReactCloses(sh: Shared, pc: ReactPc, c: Choice, told: Option<Choice>, code: StatusCode)
    requires CanReact(sh, pc, c) && Tracked(sh.call, sh.trace)
    requires Owes(sh, Reacting(pc), told) && Ends(sh.trace, DoReact(sh, pc, c).0.trace, code)
    ensures ClosesWith(sh, Reacting(pc), c, told, code)
  {
    if pc.Reject? {
      FinishEnds(sh.call, sh.trace, pc.status.code, c.a, c.b, code);
    }
  }

  lemma WriteCloses(sh: Shared, pc: WritePc, c: Choice, told: Option<Choice>, code: StatusCode)
    requires CanWrite(sh, pc, c) && Tracked(sh.call, sh.trace)
    requires Ends(sh.trace, DoWrite(sh, pc, c).0.trace, code)
    ensures ClosesWith(sh, Working(Writing(pc)), c, told, code)
  {
    if pc.WriteMetadata? {
      SendEndsNot(sh.call, sh.trace, "", c.b, c.b);
    } else if pc.WriteSend? && c.ok {
      SendEndsNot(sh.call, sh.trace, pc.m, c.a, c.b);
    } else if pc.WriteSend? {
      FinishEnds(sh.call, sh.trace, INTERNAL, c.a, c.b, code);
    }
  }

  lemma WorkCloses(sh: Shared, t: Tid, pc: WorkPc, c: Choice, told: Option<Choice>, code: StatusCode)
    requires CanWork(sh, pc, c) && Tracked(sh.call, sh.trace)
    requires WorkOwes(sh, pc, told) && Ends(sh.trace, DoWork(sh, t, pc, c).0.trace, code)
    ensures ClosesWith(sh, Working(pc), c, told, code)
  {
    match pc
    case Writing(p) => WriteCloses(sh, p, c, told, code);
    case HandlerReject(_, status) => FinishEnds(sh.call, sh.trace, status.code, c.a, c.b, code);
    case Close(status) => FinishEnds(sh.call, sh.trace, status.code, c.a, c.b, code);
    case Respond(response) => SendEndsNot(sh.call, sh.trace, response, c.a, c.b);
    case SendMetadata(_, _, _) => SendEndsNot(sh.call, sh.trace, "", c.b, c.b);
    case _ =>
  }

  lemma StepCloses(s: State, e: ServerDispatch.Event, s': State, told: Option<Choice>, code: StatusCode)
    requires Inv(s) && Enabled(s, e) && s' == Step(s, e)
    requires Owes(s.sh, s.threads[e.t], told) && Ends(s.sh.trace, s'.sh.trace, code)
    ensures ClosesWith(s.sh, s.threads[e.t], e.c, told, code)
  {
    assert Loc(s.sh, e.t, s.threads[e.t]);
    match s.threads[e.t]
    case Dispatching(d) => DispatchCloses(s.sh, d, e.c, told, code);
    case Reacting(r) => ReactCloses(s.sh, r, e.c, told, code);
    case Working(w) => WorkCloses(s.sh, e.t, w, e.c, told, code);
  }

  /** Where trailers come from: a request refused with the status of its admission, a rejection by
      the executor (8), a request rejected while it was read, a failed resume, a message that
      would not serialize (13), or the handler's return; and none but the last is ever OK. */
  lemma TrailersExplained(ss: seq<State>, es: seq<ServerDispatch.Event>, k: nat, code: StatusCode)
    requires IsRun(ss, es) && k < |es| && Ends(ss[k].sh.trace, ss[k + 1].sh.trace, code)
    ensures es[k].t in ss[k].threads
    ensures ClosesWith(ss[k].sh, ss[k].threads[es[k].t], es[k].c, LastTold(es[..k], es[k].t), code)
    ensures code == 0 ==> ss[k].threads[es[k].t].Working? && ss[k].threads[es[k].t].w.Close?
  {
    assert Follows(ss, es, k);
    RunKeeps(ss, es, k);
    ThreadsStay(ss, es, k, es[k].t);
    RunOwes(ss, es, k, es[k].t);
    StepCloses(ss[k], es[k], ss[k + 1], LastTold(es[..k], es[k].t), code);
  }

  /** The answers to the Finish a step makes, if it makes one. */
  function Finishing(pc: Pc, c: Choice): Option<(ErrorCode, ErrorCode)> {
    match pc
    case Dispatching(d) => if (d.Refuse? || d.RefuseRejected?) && c.Answers? then Some((c.a, c.b)) else None
    case Reacting(r) => if r.Reject? && c.Answers? then Some((c.a, c.b)) else None
    case Working(w) =>
      if (w.HandlerReject? || w.Close?) && c.Answers? then Some((c.a, c.b))
      else if w.Writing? && w.p.WriteSend? && c.Serialized? && !c.ok then Some((c.a, c.b))
      else None
  }

  /** The step of thread `t` ends the response exactly if it finishes and the transport accepts. */
  ghost predicate EndsExactly(sh: Shared, pc: Pc, c: Choice, sh': Shared) {
    !Finished(sh.trace) ==>
      (Finished(sh'.trace) <==>
         Finishing(pc, c).Some? && !Refuses(sh.call, Finishing(pc, c).value.0, Finishing(pc, c).value.1))
  }

  lemma FinishExactly(c: Call, t: Trace, code: StatusCode, a: ErrorCode, b: ErrorCode)
    requires Tracked(c, t) && !Finished(t)
    ensures Finished(Finish(c, t, code, a, b).trace) <==> !Refuses(c, a, b)
  {
  }

  lemma DispatchEnds(sh: Shared, pc: DispatchPc, c: Choice)
    requires CanDispatch(sh, pc, c) && Tracked(sh.call, sh.trace) && !Finished(sh.trace)
    ensures EndsExactly(sh, Dispatching(pc), c, DoDispatch(sh, pc, c).0)
  {
    if pc.Refuse? {
      FinishExactly(sh.call, sh.trace, pc.status.code, c.a, c.b);
    } else if pc.RefuseRejected? {
      FinishExactly(sh.call, sh.trace, RESOURCE_EXHAUSTED, c.a, c.b);
    }
  }

  lemma ReactEnds(sh: Shared, pc: ReactPc, c: Choice)
    requires CanReact(sh, pc, c) && Tracked(sh.call, sh.trace) && !Finished(sh.trace)
    ensures EndsExactly(sh, Reacting(pc), c, DoReact(sh, pc, c).0)
  {
    if pc.Reject? {
      FinishExactly(sh.call, sh.trace, pc.status.code, c.a, c.b);
    }
  }

  lemma WriteEnds(sh: Shared, pc: WritePc, c: Choice)
    requires CanWrite(sh, pc, c) && Tracked(sh.call, sh.trace) && !Finished(sh.trace)
    ensures EndsExactly(sh, Working(Writing(pc)), c, DoWrite(sh, pc, c).0)
  {
    if pc.WriteMetadata? {
      SendEndsNot(sh.call, sh.trace, "", c.b, c.b);
    } else if pc.WriteSend? {
      SendEndsNot(sh.call, sh.trace, pc.m, c.a, c.b);
      FinishExactly(sh.call, sh.trace, INTERNAL, c.a, c.b);
    }
  }

  lemma WorkEnds(sh: Shared, t: Tid, pc: WorkPc, c: Choice)
    requires CanWork(sh, pc, c) && Tracked(sh.call, sh.trace) && !Finished(sh.trace)
    ensures EndsExactly(sh, Working(pc), c, DoWork(sh, t, pc, c).0)
  {
    match pc
    case Writing(p) => WriteEnds(sh, p, c);
    case HandlerReject(_, status) => FinishExactly(sh.call, sh.trace, status.code, c.a, c.b);
    case Close(status) => FinishExactly(sh.call, sh.trace, status.code, c.a, c.b);
    case Respond(response) => SendEndsNot(sh.call, sh.trace, response, c.a, c.b);
    case SendMetadata(_, _, _) => SendEndsNot(sh.call, sh.trace, "", c.b, c.b);
    case _ =>
  }

  /** Trailers are sent exactly by the steps that finish the call, and exactly if it is not over and
      the transport accepts them. */
  lemma EndsExactlyWhen(s: State, e: ServerDispatch.Event, s': State)
    requires Inv(s) && Enabled(s, e) && s' == Step(s, e)
    ensures EndsExactly(s.sh, s.threads[e.t], e.c, s'.sh)
  {
    if !Finished(s.sh.trace) {
      match s.threads[e.t] {
        case Dispatching(d) => DispatchEnds(s.sh, d, e.c);
        case Reacting(r) => ReactEnds(s.sh, r, e.c);
        case Working(w) => WorkEnds(s.sh, e.t, w, e.c);
      }
    }
  }

  // -------------------------------------------------------------- after the handler

  /** Between the return of the handler and the end of its task. */
  predicate Answering(pc: WorkPc) {
    pc.Check? || pc.SendMetadata? || pc.Final? || pc.Respond? || pc.Close?
  }

  /** A task that has run its handler ends by closing the call, or without a word if the call counts
      as cancelled right after the handler, and in no other way. */
  lemma AnswersExactlyWhen(sh: Shared, t: Tid, pc: WorkPc, c: Choice)
    requires CanWork(sh, pc, c) && Answering(pc)
    ensures var (sh', pc') := DoWork(sh, t, pc, c);
            && (pc' == WorkerDone <==> pc.Close? || (pc.Check? && c == Verdict(true)))
            && (pc' != WorkerDone ==> Answering(pc'))
            && (pc.Check? ==> sh' == sh)
  {
  }

  /** The transport refuses the command: the call is over, or it answered with an error. */
  predicate Refuses(c: Call, a: ErrorCode, b: ErrorCode) {
    c.terminal || c.finishSubmitted || (!c.metadataSent && a != Ok) || b != Ok
  }

  /** What the transport answered to a refused command. */
  function Refusal(c: Call, a: ErrorCode, b: ErrorCode): ErrorCode {
    if c.terminal || c.finishSubmitted then Closed else if !c.metadataSent && a != Ok then a else b
  }

  /** Something goes wrong after the handler: its metadata cannot be set or sent, its trailing
      metadata cannot be set, or its response cannot be serialized or sent. */
  predicate Mishap(sh: Shared, pc: WorkPc, c: Choice)
    requires CanWork(sh, pc, c)
  {
    match pc
    case SendMetadata(_, _, im) =>
      !im && (c.a != Ok || sh.call.terminal || sh.call.finishSubmitted || sh.call.metadataSent || c.b != Ok)
    case Final(status, _) => c.e != Ok || (!sh.streaming && status.code == 0 && !c.serialized)
    case Respond(_) => Refuses(sh.call, c.a, c.b)
    case _ => false
  }

  /** The code a mishap is reported with: 8 if the transport had no room for the response. */
  function MishapCode(sh: Shared, pc: WorkPc, c: Choice): StatusCode
    requires CanWork(sh, pc, c)
  {
    if pc.Respond? && Refusal(sh.call, c.a, c.b) in {WouldBlock, OutOfMemory, OutOfRange} then 8 else 13
  }

  /** A step after the handler goes wrong exactly on a mishap, and is then about to close the
      call with the code of the mishap. */
  lemma FailsExactlyOn(s: State, e: ServerDispatch.Event, s': State)
    requires Inv(s) && Enabled(s, e) && s' == Step(s, e) && s.threads[e.t].Working?
    ensures !s.sh.failed && s'.sh.failed <==> !s.sh.failed && Mishap(s.sh, s.threads[e.t].w, e.c)
    ensures !s.sh.failed && s'.sh.failed ==>
              && s'.threads[e.t].Working? && s'.threads[e.t].w.Close?
              && s'.threads[e.t].w.status.code == MishapCode(s.sh, s.threads[e.t].w, e.c)
  {
    var pc := s.threads[e.t].w;
    if pc.Writing? {
      WriteOwesNothing(s.sh, pc.p, e.c);
      assert DoWrite(s.sh, pc.p, e.c).0.failed == s.sh.failed;
    }
  }

  // ----------------------------------------------------------------- what Write returns

  /** The error a TryWrite ends with: the transport refused it, or the message would not
      serialize and the call was finished for that. */
  function WriteFailure(sh: Shared, pc: WritePc, c: Choice): Option<ErrorCode>
    requires CanWrite(sh, pc, c)
  {
    match pc
    case WriteMetadata(_) =>
      if c.a != Ok then Some(c.a)
      else if sh.call.terminal || sh.call.finishSubmitted then Some(Closed)
      else if sh.call.metadataSent then Some(InvalidState)
      else if c.b != Ok then Some(c.b)
      else None
    case WriteSend(_, _) =>
      if Refuses(sh.call, c.a, c.b) then Some(Refusal(sh.call, c.a, c.b)) else if c.ok then None else Some(Internal)
    case _ => None
  }

  /** Write returns true exactly when its message was serialized and accepted. It returns false
      exactly if the call counts as cancelled when it tries, the attempt fails for a reason other
      than lack of room, or the call is cancelled or over when its wait for room ends; otherwise
      it goes on, and a wait that ends with room leads to a new attempt. */
  lemma WriteReturns(sh: Shared, pc: WritePc, c: Choice)
    requires CanWrite(sh, pc, c)
    ensures var (sh', pc') := DoWrite(sh, pc, c);
            && (sh'.writes == sh.writes + [Written(pc.m, true)] <==>
                  pc.WriteSend? && c.ok && !Refuses(sh.call, c.a, c.b))
            && (sh'.writes == sh.writes + [Written(pc.m, false)] <==>
                  || (pc.Write? && c.yes)
                  || (pc.WriteError? && pc.e != WouldBlock)
                  || (pc.WriteWait? && (sh.call.cancelled || sh.call.terminal)))
            && (pc'.Handler? <==> sh'.writes != sh.writes)
            && (pc'.Writing? && pc'.p.WriteError? <==> WriteFailure(sh, pc, c).Some?)
            && (WriteFailure(sh, pc, c).Some? ==> pc'.p.e == WriteFailure(sh, pc, c).value)
            && (pc.WriteWait? && !sh.call.cancelled && !sh.call.terminal ==> pc' == Writing(Write(pc.m, pc.im)))
  {
    assert |sh.writes + [Written(pc.m, true)]| == |sh.writes| + 1 == |sh.writes + [Written(pc.m, false)]|;
    assert (sh.writes + [Written(pc.m, true)])[|sh.writes|] == Written(pc.m, true);
  }

  // ---------------------------------------------------------- rejected by the executor

  /** The executor turned the call down. */
  predicate Denied(es: seq<ServerDispatch.Event>, t: Tid) {
    es != [] && (es[|es| - 1] == ServerDispatch.Event(t, Verdict(false)) || Denied(es[..|es| - 1], t))
  }

  lemma DeniedStep(s: State, e: ServerDispatch.Event, s': State)
    requires Inv(s) && Enabled(s, e) && s' == Step(s, e)
    ensures s'.sh.dispatcher == s.sh.dispatcher
    ensures s'.sh.ctl.rejected <==> s.sh.ctl.rejected || e == ServerDispatch.Event(s.sh.dispatcher, Verdict(false))
  {
    assert Loc(s.sh, e.t, s.threads[e.t]);
    StepKeeps(s, e);
    assert Loc(s'.sh, e.t, s'.threads[e.t]);
    if s.threads[e.t].Dispatching? {
      DispatchDenies(s.sh, s.threads[e.t].d, e.c);
    }
  }

  lemma DispatchDenies(sh: Shared, pc: DispatchPc, c: Choice)
    requires CanDispatch(sh, pc, c)
    ensures DoDispatch(sh, pc, c).0.ctl.rejected <==> sh.ctl.rejected || c == Verdict(false)
  {
    if pc.Refuse? {
      FinishControl(sh, pc.status, c.a, c.b);
    } else if pc.RefuseRejected? {
      FinishControl(sh, Status(RESOURCE_EXHAUSTED, Empty), c.a, c.b);
    } else if !pc.Submitting? {
      PlainDenies(sh, pc, c);
    }
  }

  lemma FinishControl(sh: Shared, status: Status, a: ErrorCode, b: ErrorCode)
    ensures TookFinish(sh, status, a, b).ctl == sh.ctl
  {
  }

  lemma PlainDenies(sh: Shared, pc: DispatchPc, c: Choice)
    requires CanDispatch(sh, pc, c) && !pc.Refuse? && !pc.RefuseRejected? && !pc.Submitting?
    ensures DoDispatch(sh, pc, c).0.ctl.rejected == sh.ctl.rejected && !c.Verdict?
  {
    match pc
    case Admit =>
    case SetCancelObserver =>
    case StopForCancel =>
    case SetTerminalObserver =>
    case StopForTerminal =>
    case Submit =>
    case StopRejected =>
  }

  lemma {:induction false} RejectedExactlyWhen(ss: seq<State>, es: seq<ServerDispatch.Event>, k: nat)
    requires IsRun(ss, es) && k < |ss|
    ensures ss[k].sh.ctl.rejected <==> Denied(es[..k], ss[0].sh.dispatcher)
  {
    if k > 0 {
      RejectedExactlyWhen(ss, es, k - 1);
      RolesStay(ss, es, k - 1);
      RunKeeps(ss, es, k - 1);
      assert Follows(ss, es, k - 1);
      DeniedStep(ss[k - 1], es[k - 1], ss[k]);
      assert es[..k][..k - 1] == es[..k - 1];
    }
  }

  // ------------------------------------------------------------------- the last status

  lemma EndedStep(s: State, e: ServerDispatch.Event, s': State)
    requires Enabled(s, e) && s' == Step(s, e) && s.sh.call.finishSubmitted
    ensures s'.sh.trace == s.sh.trace && s'.sh.call.finishSubmitted
  {
    match s.threads[e.t]
    case Dispatching(d) => EndedDispatch(s.sh, d, e.c);
    case Reacting(r) => EndedReact(s.sh, r, e.c);
    case Working(w) => EndedWork(s.sh, e.t, w, e.c);
  }

  lemma EndedDispatch(sh: Shared, pc: DispatchPc, c: Choice)
    requires CanDispatch(sh, pc, c) && sh.call.finishSubmitted
    ensures DoDispatch(sh, pc, c).0.trace == sh.trace && DoDispatch(sh, pc, c).0.call.finishSubmitted
  {
  }

  lemma EndedReact(sh: Shared, pc: ReactPc, c: Choice)
    requires CanReact(sh, pc, c) && sh.call.finishSubmitted
    ensures DoReact(sh, pc, c).0.trace == sh.trace && DoReact(sh, pc, c).0.call.finishSubmitted
  {
  }

  lemma EndedWork(sh: Shared, t: Tid, pc: WorkPc, c: Choice)
    requires CanWork(sh, pc, c) && sh.call.finishSubmitted
    ensures DoWork(sh, t, pc, c).0.trace == sh.trace && DoWork(sh, t, pc, c).0.call.finishSubmitted
  {
    if pc.Writing? {
      assert DoWrite(sh, pc.p, c).0.trace == sh.trace;
    }
  }

  /** The step that finished a finished trace. */
  lemma {:induction false} EndedAt(ss: seq<State>, es: seq<ServerDispatch.Event>, k: nat) returns (i: nat)
    requires IsRun(ss, es) && k < |ss| && Finished(ss[k].sh.trace)
    ensures i < k && !Finished(ss[i].sh.trace) && ss[i + 1].sh.trace == ss[k].sh.trace
  {
    i := k - 1;
    if Finished(ss[k - 1].sh.trace) {
      i := EndedAt(ss, es, k - 1);
      RunKeeps(ss, es, k - 1);
      assert Follows(ss, es, k - 1);
      EndedStep(ss[k - 1], es[k - 1], ss[k]);
    }
  }

  /** What was told was told by some event. */
  lemma {:induction false} ToldAt(es: seq<ServerDispatch.Event>, t: Tid) returns (i: nat)
    requires LastTold(es, t).Some?
    ensures i < |es| && es[i] == ServerDispatch.Event(t, LastTold(es, t).value)
  {
    i := |es| - 1;
    if !(es[i].t == t && Tells(es[i].c)) {
      i := ToldAt(es[..|es| - 1], t);
    }
  }

  /** A call that ended with OK did so at the hands of the thread `t` that ran its handler, which
      had returned OK, with its one response, if it has only one, accepted before. */
  lemma OkIsReturned(ss: seq<State>, es: seq<ServerDispatch.Event>, k: nat)
    returns (j: nat, i: nat, st: Status, response: string)
    requires IsRun(ss, es) && k < |ss| && Finished(ss[k].sh.trace) && ss[k].sh.trace.last == Trailers(OK)
    ensures i < j < k && st.code == 0 && es[i].c == Returned(st, response) && es[i].t == es[j].t
    ensures ss[j].sh.ctl.begun == Some(es[i].t) && ss[j].sh.ctl.starts == 1
    ensures !ss[j].sh.failed && (!ss[j].sh.streaming ==> ss[j].sh.writes == [Written(response, true)])
    ensures ss[j + 1].sh.trace == ss[k].sh.trace && ss[j + 1].sh.writes == ss[j].sh.writes
  {
    j := EndedAt(ss, es, k);
    TrailersExplained(ss, es, j, OK);
    var t := es[j].t;
    RunKeeps(ss, es, j);
    assert Follows(ss, es, j);
    assert Loc(ss[j].sh, t, ss[j].threads[t]);
    i := ToldAt(es[..j], t);
    st, response := es[i].c.status, es[i].c.response;
  }
}
