/** TypedCallState: the server side of one call and the commands it lets through to the
    transport (include/grpc_lite/cpp/typed_service.hpp). Each function is one section under
    the call's mutex; the transport's answers are arguments. */
module TypedCall {
  import opened Statuses

  /** A response command the transport accepted. */
  datatype Sent = InitialMetadata | Message(payload: string) | Trailers(code: StatusCode)

  /** The accepted commands, the latest last. */
  datatype Trace = Nil | Then(init: Trace, last: Sent)

  /** `watchCancel` and `watchTerminal` say that an observer is installed. */
  datatype Call = Call(
    writable: bool, cancelled: bool, terminal: bool, finishSubmitted: bool, metadataSent: bool,
    watchCancel: bool, watchTerminal: bool)

  const NEW_CALL := Call(true, false, false, false, false, false, false)

  datatype Reply = Reply(call: Call, error: ErrorCode, trace: Trace)

  predicate Over(c: Call) { c.terminal || c.finishSubmitted }

  /** EnsureInitialMetadata: `a` is the transport's answer if it is asked. */
  function Metadata(c: Call, trace: Trace, a: ErrorCode): Reply {
    if c.metadataSent then Reply(c, Ok, trace)
    else if a == Ok then Reply(c.(metadataSent := true), Ok, Then(trace, InitialMetadata))
    else Reply(c, a, trace)
  }

  function SendInitialMetadata(c: Call, trace: Trace, a: ErrorCode): Reply {
    if Over(c) then Reply(c, Closed, trace)
    else if c.metadataSent then Reply(c, InvalidState, trace)
    else Metadata(c, trace, a)
  }

  function Send(c: Call, trace: Trace, payload: string, a: ErrorCode, b: ErrorCode): Reply {
    if Over(c) then Reply(c, Closed, trace)
    else
      var m := Metadata(c, trace, a);
      if m.error != Ok then m
      else if b == Ok then Reply(m.call, Ok, Then(m.trace, Message(payload)))
      else Reply(if b == WouldBlock then m.call.(writable := false) else m.call, b, m.trace)
  }

  /** The transport has blocked this Send and owes the call a writable notification. */
  predicate Blocked(c: Call, t: Trace, a: ErrorCode, b: ErrorCode) {
    !Over(c) && Metadata(c, t, a).error == Ok && b == WouldBlock
  }

  function Finish(c: Call, trace: Trace, code: StatusCode, a: ErrorCode, b: ErrorCode): Reply {
    if Over(c) then Reply(c, Closed, trace)
    else
      var m := Metadata(c, trace, a);
      if m.error != Ok then m
      else if b == Ok then Reply(m.call.(finishSubmitted := true), Ok, Then(m.trace, Trailers(code)))
      else Reply(m.call, b, m.trace)
  }

  /** FinishResponse: sends the response and then finishes; `payload` is None when the response
      does not serialize. */
  function FinishResponse(
      c: Call, t: Trace, payload: Option<string>, status: Status,
      a: ErrorCode, b: ErrorCode, a': ErrorCode, b': ErrorCode): Reply
  {
    if !status.IsOk() then Finish(c, t, status.code, a, b)
    else if payload.None? then Finish(c, t, INTERNAL, a, b)
    else AfterSend(Send(c, t, payload.value, a, b), a', b')
  }

  function AfterSend(sent: Reply, a: ErrorCode, b: ErrorCode): Reply {
    if sent.error == Ok then Finish(sent.call, sent.trace, OK, a, b)
    else
      var finished := Finish(sent.call, sent.trace, SendErrorStatus(sent.error).code, a, b);
      if finished.error == Ok then finished.(error := sent.error) else finished
  }

  function OnWritable(c: Call): Call { c.(writable := true) }

  function OnCancel(c: Call): Call { c.(cancelled := true) }

  function OnTerminal(c: Call): Call {
    c.(terminal := true, watchCancel := false, watchTerminal := false)
  }

  /** SetOnCancel: installs the observer unless the event is past; `cancelled` then tells the
      caller to run the observer itself. */
  function SetOnCancel(c: Call): Call {
    if !c.cancelled && !c.terminal then c.(watchCancel := true) else c
  }

  function SetOnTerminal(c: Call): Call {
    if !c.terminal then c.(watchTerminal := true) else c
  }

  // ------------------------------------------------------------ response grammar

  predicate Finished(t: Trace) { t.Then? && t.last.Trailers? }

  predicate Ordered(t: Trace) {
    t.Then? ==> Ordered(t.init) && !Finished(t.init) && (t.init.Nil? <==> t.last.InitialMetadata?)
  }

  /** What a call keeps of the commands the transport accepted. */
  ghost predicate Tracked(c: Call, t: Trace) {
    && Ordered(t)
    && (c.metadataSent <==> t.Then?)
    && (c.finishSubmitted <==> Finished(t))
  }

  function Messages(t: Trace): seq<string> {
    match t
    case Nil => []
    case Then(init, last) => Messages(init) + (if last.Message? then [last.payload] else [])
  }

  /** What a command may change of the call: three flags, and `writable` only to false. */
  ghost predicate Commanded(c: Call, t: Trace, r: Reply) {
    && r.call == c.(writable := r.call.writable, metadataSent := r.call.metadataSent,
                    finishSubmitted := r.call.finishSubmitted)
    && (r.call.writable ==> c.writable)
    && (c.finishSubmitted ==> r.call == c && r.trace == t)
    && Tracked(r.call, r.trace)
  }

  /** A Send's reply: its message is accepted exactly when the reply is Ok. */
  ghost predicate Delivers(c: Call, t: Trace, m: string, r: Reply) {
    && Commanded(c, t, r) && r.call.finishSubmitted == c.finishSubmitted
    && Messages(r.trace) == Messages(t) + (if r.error == Ok then [m] else [])
  }

  lemma SendTracked(c: Call, t: Trace, payload: string, a: ErrorCode, b: ErrorCode)
    requires Tracked(c, t)
    ensures var r := Send(c, t, payload, a, b);
            && Delivers(c, t, payload, r)
            && (r.call.writable != c.writable ==> Blocked(c, t, a, b))
  {
  }

  lemma MetadataTracked(c: Call, t: Trace, a: ErrorCode)
    requires Tracked(c, t)
    ensures var r := SendInitialMetadata(c, t, a);
            && Commanded(c, t, r) && Messages(r.trace) == Messages(t)
            && r.call.finishSubmitted == c.finishSubmitted && r.call.writable == c.writable
  {
  }

  /** Trailers after what EnsureInitialMetadata left. */
  lemma TrailersTracked(c: Call, t: Trace, m: Reply, code: StatusCode)
    requires Commanded(c, t, m) && Messages(m.trace) == Messages(t)
    requires m.call.metadataSent && !m.call.finishSubmitted && m.call.writable == c.writable
    ensures var r := Reply(m.call.(finishSubmitted := true), Ok, Then(m.trace, Trailers(code)));
            Commanded(c, t, r) && Messages(r.trace) == Messages(t)
  {
  }

  lemma EnsureTracked(c: Call, t: Trace, a: ErrorCode)
    requires Tracked(c, t) && !c.finishSubmitted
    ensures var m := Metadata(c, t, a);
            && Commanded(c, t, m) && Messages(m.trace) == Messages(t)
            && !m.call.finishSubmitted && m.call.writable == c.writable
            && (m.error == Ok ==> m.call.metadataSent)
  {
  }

  lemma FinishTracked(c: Call, t: Trace, code: StatusCode, a: ErrorCode, b: ErrorCode)
    requires Tracked(c, t)
    ensures var r := Finish(c, t, code, a, b);
            && Commanded(c, t, r) && Messages(r.trace) == Messages(t)
            && r.call.writable == c.writable
            && (r.error == Ok <==> !c.finishSubmitted && r.call.finishSubmitted)
            && (r.error == Ok ==> r.trace.Then? && r.trace.last == Trailers(code))
  {
    if !Over(c) {
      EnsureTracked(c, t, a);
      var m := Metadata(c, t, a);
      if m.error == Ok && b == Ok {
        TrailersTracked(c, t, m, code);
      }
    }
  }

  /** The code a response is followed by, once the transport has answered its Send. */
  function ClosingCode(sent: ErrorCode): StatusCode {
    if sent == Ok then 0 else if sent in {WouldBlock, OutOfMemory, OutOfRange} then 8 else 13
  }

  /** What follows a Send: trailers with OK only after an accepted message, with 8 if there was
      no room for it and with 13 after any other error. */
  ghost predicate Closes(sent: Reply, r: Reply) {
    && Commanded(sent.call, sent.trace, r) && Messages(r.trace) == Messages(sent.trace)
    && (!sent.call.finishSubmitted && r.call.finishSubmitted ==> r.trace.last == Trailers(ClosingCode(sent.error)))
    && (r.error == Ok ==> r.call.finishSubmitted && !sent.call.finishSubmitted && r.trace.last == Trailers(OK))
  }

  lemma AfterSendMeans(sent: Reply, a: ErrorCode, b: ErrorCode)
    requires Tracked(sent.call, sent.trace)
    ensures Closes(sent, AfterSend(sent, a, b))
  {
    FinishTracked(sent.call, sent.trace, if sent.error == Ok then OK else SendErrorStatus(sent.error).code, a, b);
  }

  lemma CommandedChain(c: Call, t: Trace, r: Reply, r': Reply)
    requires Commanded(c, t, r) && Commanded(r.call, r.trace, r')
    ensures Commanded(c, t, r')
  {
  }

  /** The code a call that was open finishes with. */
  function ResponseCode(c: Call, payload: Option<string>, status: Status, a: ErrorCode, b: ErrorCode): StatusCode {
    if status.code != 0 then status.code
    else if payload.None? then 13
    else ClosingCode(if !c.metadataSent && a != Ok then a else b)
  }

  /** A call finished with OK has just had its response accepted; the code tells why not: the
      given status, 13 for a response that does not serialize, 8 or 13 for one not accepted. An
      OK answer means that the call is now finished, with the given status if there was a
      response to send. */
  ghost predicate Responds(
      c: Call, t: Trace, payload: Option<string>, status: Status, a: ErrorCode, b: ErrorCode, r: Reply)
  {
    && Commanded(c, t, r)
    && (!c.finishSubmitted && r.call.finishSubmitted ==>
          r.trace.last == Trailers(ResponseCode(c, payload, status, a, b)))
    && (!c.finishSubmitted && r.call.finishSubmitted && r.trace.last == Trailers(OK) ==>
          payload.Some? && status.IsOk() && Messages(r.trace) == Messages(t) + [payload.value])
    && (r.error == Ok ==> r.call.finishSubmitted && !c.finishSubmitted)
    && (r.error == Ok && payload.Some? ==> r.trace.last == Trailers(status.code))
  }

  /** What the transport answered to a Send on an open call. */
  ghost predicate Sends(c: Call, sent: Reply, a: ErrorCode, b: ErrorCode) {
    !Over(c) ==> sent.error == if !c.metadataSent && a != Ok then a else b
  }

  lemma SentResponds(c: Call, t: Trace, m: string, status: Status, sent: Reply, a: ErrorCode, b: ErrorCode, r: Reply)
    requires status.IsOk() && Delivers(c, t, m, sent) && Sends(c, sent, a, b) && (c.terminal ==> r.call == sent.call)
    requires Closes(sent, r)
    ensures Responds(c, t, Some(m), status, a, b, r)
  {
    CommandedChain(c, t, sent, r);
  }

  lemma FinishResponds(c: Call, t: Trace, payload: Option<string>, status: Status, code: StatusCode, a: ErrorCode, b: ErrorCode)
    requires Tracked(c, t) && code == (if status.IsOk() then 13 else status.code)
    requires status.IsOk() ==> payload.None?
    ensures Responds(c, t, payload, status, a, b, Finish(c, t, code, a, b))
  {
    FinishTracked(c, t, code, a, b);
  }

  lemma AfterSendResponds(
      c: Call, t: Trace, m: string, status: Status, sent: Reply,
      a: ErrorCode, b: ErrorCode, a': ErrorCode, b': ErrorCode)
    requires status.IsOk() && Delivers(c, t, m, sent) && Sends(c, sent, a, b)
    ensures Responds(c, t, Some(m), status, a, b, AfterSend(sent, a', b'))
  {
    AfterSendMeans(sent, a', b');
    SentResponds(c, t, m, status, sent, a, b, AfterSend(sent, a', b'));
  }

  lemma SendAnswers(c: Call, t: Trace, m: string, a: ErrorCode, b: ErrorCode)
    ensures Sends(c, Send(c, t, m, a, b), a, b)
  {
  }

  lemma SendResponds(
      c: Call, t: Trace, m: string, status: Status,
      a: ErrorCode, b: ErrorCode, a': ErrorCode, b': ErrorCode)
    requires Tracked(c, t) && status.IsOk()
    ensures Responds(c, t, Some(m), status, a, b, AfterSend(Send(c, t, m, a, b), a', b'))
  {
    var sent := Send(c, t, m, a, b);
    SendTracked(c, t, m, a, b);
    SendAnswers(c, t, m, a, b);
    AfterSendResponds(c, t, m, status, sent, a, b, a', b');
  }

  lemma FinishResponseMeans(
      c: Call, t: Trace, payload: Option<string>, status: Status,
      a: ErrorCode, b: ErrorCode, a': ErrorCode, b': ErrorCode)
    requires Tracked(c, t)
    ensures Responds(c, t, payload, status, a, b, FinishResponse(c, t, payload, status, a, b, a', b'))
  {
    if !status.IsOk() {
      FinishResponds(c, t, payload, status, status.code, a, b);
    } else if payload.None? {
      FinishResponds(c, t, payload, status, INTERNAL, a, b);
    } else {
      SendResponds(c, t, payload.value, status, a, b, a', b');
    }
  }

  // ------------------------------------------------- every interleaving of sections

  datatype Event =
    | DoMetadata(a: ErrorCode)
    | DoSend(payload: string, a: ErrorCode, b: ErrorCode)
    | DoFinish(code: StatusCode, a: ErrorCode, b: ErrorCode)
    | DoWritable
    | DoCancel
    | DoTerminal
    | WatchCancel
    | WatchTerminal

  function Apply(c: Call, t: Trace, e: Event): Reply {
    match e
    case DoMetadata(a) => SendInitialMetadata(c, t, a)
    case DoSend(p, a, b) => Send(c, t, p, a, b)
    case DoFinish(code, a, b) => Finish(c, t, code, a, b)
    case DoWritable => Reply(OnWritable(c), Ok, t)
    case DoCancel => Reply(OnCancel(c), Ok, t)
    case DoTerminal => Reply(OnTerminal(c), Ok, t)
    case WatchCancel => Reply(SetOnCancel(c), Ok, t)
    case WatchTerminal => Reply(SetOnTerminal(c), Ok, t)
  }

  /** The call and the accepted commands after a sequence of sections by any threads. */
  function Run(es: seq<Event>): (Call, Trace) {
    if es == [] then (NEW_CALL, Nil)
    else
      var (c, t) := Run(es[..|es| - 1]);
      var r := Apply(c, t, es[|es| - 1]);
      (r.call, r.trace)
  }

  lemma ApplyTracked(c: Call, t: Trace, e: Event)
    requires Tracked(c, t)
    ensures Tracked(Apply(c, t, e).call, Apply(c, t, e).trace)
  {
    match e
    case DoMetadata(a) => MetadataTracked(c, t, a);
    case DoSend(p, a, b) => SendTracked(c, t, p, a, b);
    case DoFinish(code, a, b) => FinishTracked(c, t, code, a, b);
    case _ =>
  }

  lemma {:induction false} RunTracked(es: seq<Event>)
    ensures Tracked(Run(es).0, Run(es).1)
  {
    if es != [] {
      RunTracked(es[..|es| - 1]);
      ApplyTracked(Run(es[..|es| - 1]).0, Run(es[..|es| - 1]).1, es[|es| - 1]);
    }
  }

  function AsSeq(t: Trace): seq<Sent> {
    if t.Nil? then [] else AsSeq(t.init) + [t.last]
  }

  /** A prefix of: initial metadata, any number of messages, trailers. */
  predicate Grammar(s: seq<Sent>) {
    s != [] ==>
      && s[0].InitialMetadata?
      && forall i | 1 <= i < |s| :: s[i].Message? || (s[i].Trailers? && i == |s| - 1)
  }

  lemma {:induction false} OrderedIsGrammar(t: Trace)
    requires Ordered(t)
    ensures Grammar(AsSeq(t)) && (t.Nil? <==> AsSeq(t) == [])
    ensures t.Then? ==> AsSeq(t)[|AsSeq(t)| - 1] == t.last
  {
    if t.Then? {
      OrderedIsGrammar(t.init);
      var s, r := AsSeq(t.init), AsSeq(t);
      forall i | 1 <= i < |r| ensures r[i].Message? || (r[i].Trailers? && i == |r| - 1) {
        if i < |s| {
          assert r[i] == s[i];
        }
      }
    }
  }

  /** Response order: whatever the threads do, the accepted commands are a prefix of initial
      metadata, messages, trailers, with at most one of the first and of the last. */
  lemma ResponseOrder(es: seq<Event>)
    ensures Grammar(AsSeq(Run(es).1))
  {
    RunTracked(es);
    OrderedIsGrammar(Run(es).1);
  }

  lemma {:induction false} TerminalStays(es: seq<Event>, more: seq<Event>)
    requires Run(es).0.terminal
    ensures Run(es + more).0.terminal && Run(es + more).1 == Run(es).1
  {
    if more == [] {
      assert es + more == es;
    } else {
      assert (es + more)[..|es + more| - 1] == es + more[..|more| - 1];
      TerminalStays(es, more[..|more| - 1]);
    }
  }

  /** Nothing is accepted after OnTerminal. */
  lemma NothingAfterTerminal(es: seq<Event>, more: seq<Event>)
    ensures Run(es + [DoTerminal] + more).1 == Run(es).1
  {
    assert (es + [DoTerminal])[..|es|] == es;
    TerminalStays(es + [DoTerminal], more);
  }
}
