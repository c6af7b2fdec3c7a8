/** TypedRequestStreamState: the one-slot request mailbox of a streaming server call
    (include/grpc_lite/cpp/typed_service.hpp), any number of reading threads, and the
    transport that fills it (src/server.zig). Each critical section is one step. */
module RequestStream {
  import opened Statuses
  import opened TypedCall
  import opened Histories

  type Tid = nat

  const INT_MAX: nat := 0x7fff_ffff

  /** A received message: its size, and what the protobuf parser makes of it. */
  datatype Payload = Payload(size: nat, parsed: Option<string>)

  datatype Mailbox = Mailbox(
    message: Option<string>, remoteEnd: bool, rejected: bool, cancelled: bool, terminal: bool)

  const NEW_MAILBOX := Mailbox(None, false, false, false, false)

  predicate Shut(b: Mailbox) { b.rejected || b.remoteEnd || b.terminal }

  function Buffered(b: Mailbox): seq<string> {
    if b.message.Some? then [b.message.value] else []
  }

  /** Why OnMessage refuses a message. */
  datatype Refusal = Overflow | TooLarge | Malformed

  datatype Verdict = Ignored | Refused(why: Refusal) | Stored(request: string)

  function Judge(b: Mailbox, p: Payload): Verdict {
    if Shut(b) then Ignored
    else if b.message.Some? then Refused(Overflow)
    else if p.size > INT_MAX then Refused(TooLarge)
    else if p.parsed.None? then Refused(Malformed)
    else Stored(p.parsed.value)
  }

  function RefusalCode(why: Refusal): StatusCode {
    match why
    case Overflow => INTERNAL
    case TooLarge => RESOURCE_EXHAUSTED
    case Malformed => INVALID_ARGUMENT
  }

  /** OnMessage, apart from the Finish of a refusal. */
  function Put(b: Mailbox, p: Payload): Mailbox {
    match Judge(b, p)
    case Ignored => b
    case Refused(_) => b.(rejected := true)
    case Stored(request) => b.(message := Some(request))
  }

  predicate Awake(b: Mailbox) {
    b.message.Some? || b.remoteEnd || b.rejected || b.cancelled || b.terminal
  }

  function Take(b: Mailbox): Mailbox { b.(message := None) }

  // ----------------------------------------------------------------------- transport

  /** Where the transport is with receiving: ready, inside on_message before or after the
      mailbox's section (`resume` remembers a resume asked for meanwhile), paused, or paused
      with a resume queued for its loop. */
  datatype Receive =
    | Ready
    | Entering(p: Payload, resume: bool)
    | Leaving(resume: bool)
    | Paused
    | ResumeQueued

  /** What the last Read of a thread returned: nothing yet, false, or a request. */
  datatype Outcome = Nothing | False | Got(request: string)

  /** A reader; after it has emptied the slot it has a request in hand. */
  datatype Pc = Away(last: Outcome) | Waiting | Resuming(request: string) | Failing(request: string)

  /** `polite` transports follow the pause protocol; others deliver at any time and answer
      resumes as they like. `owner` is the reader that owes a resume. The rest is history:
      the accepted and returned requests, whether a refusal said "backpressure violated", and
      whether a resume found the transport not paused. */
  datatype Shared = Shared(
    polite: bool, box: Mailbox, call: Call, trace: Trace, receive: Receive, alive: bool,
    owner: Option<Tid>, accepted: seq<string>, returned: seq<string>, violated: bool, unpaused: bool)

  datatype State = State(sh: Shared, readers: map<Tid, Pc>)

  datatype Event =
    | Read(t: Tid)                                     // a reader's next section
    | Resume(t: Tid, answer: ErrorCode)                // to a resume it has to queue
    | Fail(t: Tid, a: ErrorCode, b: ErrorCode)         // Finish after a failed resume
    | Arrive(p: Payload)
    | Enter(found: bool, a: ErrorCode, b: ErrorCode)   // `found`: the service retained the call
    | Leave
    | Drain                                            // the loop processes a queued resume
    | Die
    | Deliver(p: Payload, a: ErrorCode, b: ErrorCode)  // an impolite delivery
    | RemoteEnd
    | Cancel
    | Terminal
    | Elsewhere(use: TypedCall.Event)                  // any other use of the call

  predicate Enabled(s: State, e: Event) {
    match e
    case Read(t) => t in s.readers && (s.readers[t].Away? || (s.readers[t] == Waiting && Awake(s.sh.box)))
    case Resume(t, _) => t in s.readers && s.readers[t].Resuming?
    case Fail(t, _, _) => t in s.readers && s.readers[t].Failing?
    case Arrive(_) => s.sh.alive && s.sh.receive == Ready
    case Enter(_, _, _) => s.sh.receive.Entering?
    case Leave => s.sh.receive.Leaving?
    case Drain => s.sh.receive == ResumeQueued
    case Deliver(_, _, _) => !s.sh.polite
    case _ => true
  }

  /** OnMessage: the mailbox, and the Finish of a refusal. */
  function OnMessage(sh: Shared, p: Payload, a: ErrorCode, b: ErrorCode): Shared {
    var s1 := sh.(box := Put(sh.box, p));
    match Judge(sh.box, p)
    case Ignored => s1
    case Refused(why) =>
      var r := Finish(sh.call, sh.trace, RefusalCode(why), a, b);
      s1.(call := r.call, trace := r.trace, violated := sh.violated || why == Overflow)
    case Stored(request) => s1.(accepted := sh.accepted + [request])
  }

  /** ResumeReceive of the call and then of the transport. */
  function ResumeReceive(sh: Shared, e: ErrorCode): (Shared, ErrorCode) {
    if Over(sh.call) || !sh.alive then (sh, Closed)
    else if !sh.polite then (sh, e)
    else
      match sh.receive
      case Ready => (sh.(unpaused := true), InvalidState)
      case Entering(p, _) => (sh.(receive := Entering(p, true)), Ok)
      case Leaving(_) => (sh.(receive := Leaving(true)), Ok)
      case ResumeQueued => (sh, Ok)
      case Paused => if e == Ok then (sh.(receive := ResumeQueued), Ok) else (sh, e)
  }

  function Step(s: State, e: Event): State
    requires Enabled(s, e)
  {
    var sh := s.sh;
    match e
    case Read(t) =>
      if s.readers[t].Away? then s.(readers := s.readers[t := Waiting])
      else if sh.box.message.None? then s.(readers := s.readers[t := Away(False)])
      else
        State(sh.(box := Take(sh.box), owner := Some(t), returned := sh.returned + [sh.box.message.value]),
              s.readers[t := Resuming(sh.box.message.value)])
    case Resume(t, answer) =>
      var (s1, error) := ResumeReceive(sh, answer);
      State(s1.(owner := None),
            s.readers[t := if error in {Ok, Closed, Unavailable} then Away(Got(s.readers[t].request))
                           else Failing(s.readers[t].request)])
    case Fail(t, a, b) =>
      var r := Finish(sh.call, sh.trace, INTERNAL, a, b);
      State(sh.(call := r.call, trace := r.trace), s.readers[t := Away(Got(s.readers[t].request))])
    case Arrive(p) => s.(sh := sh.(receive := Entering(p, false)))
    case Enter(found, a, b) =>
      var s1 := if found then OnMessage(sh, sh.receive.p, a, b) else sh;
      s.(sh := s1.(receive := Leaving(sh.receive.resume)))
    case Leave => s.(sh := sh.(receive := if sh.alive && !sh.receive.resume then Paused else Ready))
    case Drain => s.(sh := sh.(receive := Ready))
    case Die => s.(sh := sh.(alive := false))
    case Deliver(p, a, b) => s.(sh := OnMessage(sh, p, a, b))
    case RemoteEnd => s.(sh := sh.(box := sh.box.(remoteEnd := true)))
    case Cancel => s.(sh := sh.(box := sh.box.(cancelled := true)))
    case Terminal => s.(sh := sh.(box := sh.box.(terminal := true)))
    case Elsewhere(ev) =>
      var r := Apply(sh.call, sh.trace, ev);
      s.(sh := sh.(call := r.call, trace := r.trace))
  }

  predicate Init(s: State) {
    && s.sh == Shared(s.sh.polite, NEW_MAILBOX, NEW_CALL, Nil, Ready, true, None, [], [], false, false)
    && forall t | t in s.readers :: s.readers[t] == Away(Nothing)
  }

  predicate Follows(ss: seq<State>, es: seq<Event>, i: nat)
    requires |ss| == |es| + 1 && i < |es|
  {
    Enabled(ss[i], es[i]) && ss[i + 1] == Step(ss[i], es[i])
  }

  ghost predicate IsRun(ss: seq<State>, es: seq<Event>) {
    && |ss| == |es| + 1
    && Init(ss[0])
    && forall i | 0 <= i < |es| :: Follows(ss, es, i)
  }

  // ---------------------------------------------------------------------- invariants

  /** Nothing is lost, repeated or reordered. */
  ghost predicate Conserved(sh: Shared) {
    sh.accepted == sh.returned + Buffered(sh.box)
  }

  /** "May deliver", "slot full" and "a reader owes a resume" exclude each other. */
  ghost predicate Exclusive(sh: Shared) {
    && (sh.box.message.Some? || sh.owner.Some? ==>
          !sh.receive.Entering? && (sh.alive ==> sh.receive == Leaving(false) || sh.receive == Paused))
    && !(sh.box.message.Some? && sh.owner.Some?)
    && (sh.receive.Entering? ==> !sh.receive.resume)
    && !sh.violated && !sh.unpaused
  }

  ghost predicate Inv(s: State) {
    && Conserved(s.sh)
    && (s.sh.polite ==> Exclusive(s.sh) && forall t | t in s.readers && s.readers[t].Resuming? :: s.sh.owner == Some(t))
  }

  lemma MessageConserves(sh: Shared, p: Payload, a: ErrorCode, b: ErrorCode)
    requires Conserved(sh)
    ensures Conserved(OnMessage(sh, p, a, b))
  {
  }

  lemma TakeConserves(sh: Shared, t: Tid)
    requires Conserved(sh) && sh.box.message.Some?
    ensures Conserved(sh.(box := Take(sh.box), owner := Some(t), returned := sh.returned + [sh.box.message.value]))
  {
    assert sh.accepted == sh.returned + [sh.box.message.value];
  }

  lemma StepConserves(s: State, e: Event)
    requires Conserved(s.sh) && Enabled(s, e)
    ensures Conserved(Step(s, e).sh)
  {
    match e
    case Read(t) => if s.sh.box.message.Some? { TakeConserves(s.sh, t); }
    case Enter(_, a, b) => MessageConserves(s.sh, s.sh.receive.p, a, b);
    case Deliver(p, a, b) => MessageConserves(s.sh, p, a, b);
    case _ => assert Moves(s.sh, Step(s, e).sh);
  }

  /** Steps that leave the slot and the history alone. */
  ghost predicate Moves(sh: Shared, sh': Shared) {
    sh'.box.message == sh.box.message && sh'.accepted == sh.accepted && sh'.returned == sh.returned
  }

  lemma StepExcludes(s: State, e: Event)
    requires Inv(s) && s.sh.polite && Enabled(s, e)
    ensures Exclusive(Step(s, e).sh)
  {
  }

  lemma StepOwns(s: State, e: Event)
    requires Inv(s) && s.sh.polite && Enabled(s, e)
    ensures var s' := Step(s, e);
            forall t | t in s'.readers && s'.readers[t].Resuming? :: s'.sh.owner == Some(t)
  {
  }

  lemma {:induction false} RunKeeps(ss: seq<State>, es: seq<Event>, k: nat)
    requires IsRun(ss, es) && k < |ss|
    ensures Inv(ss[k])
  {
    if k > 0 {
      RunKeeps(ss, es, k - 1);
      assert Follows(ss, es, k - 1);
      StepConserves(ss[k - 1], es[k - 1]);
      if ss[k - 1].sh.polite {
        StepExcludes(ss[k - 1], es[k - 1]);
        StepOwns(ss[k - 1], es[k - 1]);
      }
    }
  }

  // ------------------------------------------------------------------------- results

  /** The request a step takes out of the slot. */
  function TakenAt(s: State, e: Event): seq<Entry<string>> {
    if e.Read? && e.t in s.readers && s.readers[e.t] == Waiting && s.sh.box.message.Some?
    then [Entry(e.t, s.sh.box.message.value)]
    else []
  }

  /** The request a step returns from Read. */
  function ReturnedAt(s: State, e: Event): seq<Entry<string>>
    requires Enabled(s, e)
  {
    if e.Read? || e.Resume? || e.Fail? then
      var last := Step(s, e).readers[e.t];
      if last.Away? && last.last.Got? then [Entry(e.t, last.last.request)] else []
    else []
  }

  ghost function Taken(ss: seq<State>, es: seq<Event>, k: nat): seq<Entry<string>>
    requires IsRun(ss, es) && k < |ss|
  {
    if k == 0 then [] else Taken(ss, es, k - 1) + TakenAt(ss[k - 1], es[k - 1])
  }

  ghost function Returned(ss: seq<State>, es: seq<Event>, k: nat): seq<Entry<string>>
    requires IsRun(ss, es) && k < |ss|
  {
    if k == 0 then []
    else
      assert Follows(ss, es, k - 1);
      Returned(ss, es, k - 1) + ReturnedAt(ss[k - 1], es[k - 1])
  }

  function InHand(pc: Pc): seq<string> {
    if pc.Resuming? || pc.Failing? then [pc.request] else []
  }

  lemma ReaderMoves(s: State, e: Event, s': State, t: Tid)
    requires Enabled(s, e) && s' == Step(s, e) && t in s.readers
    ensures t in s'.readers
    ensures s'.sh.returned == s.sh.returned + (if TakenAt(s, e) != [] then [TakenAt(s, e)[0].item] else [])
    ensures |TakenAt(s, e)| <= 1 && |ReturnedAt(s, e)| <= 1
    ensures var took := TakenAt(s, e) != [] && TakenAt(s, e)[0].t == t;
            var back := ReturnedAt(s, e) != [] && ReturnedAt(s, e)[0].t == t;
            InHand(s.readers[t]) + (if took then [TakenAt(s, e)[0].item] else [])
              == (if back then [ReturnedAt(s, e)[0].item] else []) + InHand(s'.readers[t])
  {
  }

  lemma TakenExtends(taken: seq<Entry<string>>, given: seq<Entry<string>>, s: State, e: Event, s': State, t: Tid)
    requires Enabled(s, e) && s' == Step(s, e) && t in s.readers
    requires Items(taken) == s.sh.returned && By(taken, t) == By(given, t) + InHand(s.readers[t])
    ensures t in s'.readers && Items(taken + TakenAt(s, e)) == s'.sh.returned
    ensures By(taken + TakenAt(s, e), t) == By(given + ReturnedAt(s, e), t) + InHand(s'.readers[t])
  {
    var more, back := TakenAt(s, e), ReturnedAt(s, e);
    ReaderMoves(s, e, s', t);
    if more != [] { One(more[0], t); assert more == [more[0]]; }
    if back != [] { One(back[0], t); assert back == [back[0]]; }
    Extends(taken, given, more, back, t, InHand(s.readers[t]), InHand(s'.readers[t]));
  }

  lemma SameReaders(s: State, e: Event, s': State, t: Tid)
    requires Enabled(s, e) && s' == Step(s, e)
    ensures t in s'.readers <==> t in s.readers
  {
  }

  lemma {:induction false} TakenIsReturned(ss: seq<State>, es: seq<Event>, k: nat, t: Tid)
    requires IsRun(ss, es) && k < |ss| && t in ss[k].readers
    ensures Items(Taken(ss, es, k)) == ss[k].sh.returned
    ensures By(Taken(ss, es, k), t) == By(Returned(ss, es, k), t) + InHand(ss[k].readers[t])
  {
    if k > 0 {
      assert Follows(ss, es, k - 1);
      SameReaders(ss[k - 1], es[k - 1], ss[k], t);
      TakenIsReturned(ss, es, k - 1, t);
      TakenExtends(Taken(ss, es, k - 1), Returned(ss, es, k - 1), ss[k - 1], es[k - 1], ss[k], t);
    }
  }

  /** For any transport: the requests taken by all readers and then the buffered one are the
      accepted requests, in order; and every reader's Reads have returned, in order and once
      each, what the reader took, but for one still in its hands. */
  lemma RequestsConserved(ss: seq<State>, es: seq<Event>, k: nat, t: Tid)
    requires IsRun(ss, es) && k < |ss| && t in ss[k].readers
    ensures Items(Taken(ss, es, k)) + Buffered(ss[k].sh.box) == ss[k].sh.accepted
    ensures By(Taken(ss, es, k), t) == By(Returned(ss, es, k), t) + InHand(ss[k].readers[t])
  {
    RunKeeps(ss, es, k);
    TakenIsReturned(ss, es, k, t);
  }

  /** With a transport that follows the pause protocol, no message ever meets a full mailbox,
      no resume ever meets a transport that is not paused, and at most one reader owes one. */
  lemma BackpressureHolds(ss: seq<State>, es: seq<Event>, k: nat)
    requires IsRun(ss, es) && k < |ss| && ss[k].sh.polite
    ensures !ss[k].sh.violated && !ss[k].sh.unpaused
    ensures ss[k].sh.receive.Entering? ==> ss[k].sh.box.message.None?
    ensures forall t, u | t in ss[k].readers && u in ss[k].readers ::
              ss[k].readers[t].Resuming? && ss[k].readers[u].Resuming? ==> t == u
  {
    RunKeeps(ss, es, k);
  }

  /** The slot can only be emptied into a reader. */
  ghost predicate Closing(sh: Shared, sh': Shared) {
    && Shut(sh'.box) && sh'.accepted == sh.accepted
    && |sh'.returned| + |Buffered(sh'.box)| == |sh.returned| + |Buffered(sh.box)|
  }

  lemma ClosingChain(a: Shared, b: Shared, c: Shared)
    requires Closing(a, b) && Closing(b, c)
    ensures Closing(a, c)
  {
  }

  lemma ShutIgnores(sh: Shared, p: Payload, a: ErrorCode, b: ErrorCode)
    requires Shut(sh.box)
    ensures OnMessage(sh, p, a, b) == sh
  {
  }

  lemma ShutRead(s: State, t: Tid, s': State)
    requires Enabled(s, Read(t)) && Shut(s.sh.box) && s' == Step(s, Read(t))
    ensures Closing(s.sh, s'.sh)
  {
  }

  lemma ShutMoves(s: State, e: Event, s': State)
    requires Enabled(s, e) && Shut(s.sh.box) && s' == Step(s, e)
    requires !e.Read? && !e.Enter? && !e.Deliver?
    ensures Closing(s.sh, s'.sh)
  {
  }

  lemma ShutStays(s: State, e: Event, s': State)
    requires Enabled(s, e) && Shut(s.sh.box) && s' == Step(s, e)
    ensures Closing(s.sh, s'.sh)
  {
    match e
    case Read(t) => ShutRead(s, t, s');
    case Enter(_, a, b) => ShutIgnores(s.sh, s.sh.receive.p, a, b);
    case Deliver(p, a, b) => ShutIgnores(s.sh, p, a, b);
    case _ => ShutMoves(s, e, s');
  }

  lemma {:induction false} ShutForGood(ss: seq<State>, es: seq<Event>, i: nat, j: nat)
    requires IsRun(ss, es) && i <= j < |ss| && Shut(ss[i].sh.box)
    ensures Closing(ss[i].sh, ss[j].sh)
  {
    if i < j {
      ShutForGood(ss, es, i, j - 1);
      assert Follows(ss, es, j - 1);
      ShutStays(ss[j - 1], es[j - 1], ss[j]);
      ClosingChain(ss[i].sh, ss[j - 1].sh, ss[j].sh);
    }
  }

  /** For any transport: after the end, a rejection or the terminal event nothing is accepted
      and at most one more Read returns a request, and only if one is buffered. */
  lemma AtMostOneAfterEnd(ss: seq<State>, es: seq<Event>, i: nat, j: nat)
    requires IsRun(ss, es) && i <= j < |ss| && Shut(ss[i].sh.box)
    ensures Shut(ss[j].sh.box) && ss[j].sh.accepted == ss[i].sh.accepted
    ensures |ss[j].sh.returned| + |Buffered(ss[j].sh.box)| == |ss[i].sh.returned| + |Buffered(ss[i].sh.box)|
    ensures |ss[j].sh.returned| - |ss[i].sh.returned| <= 1
  {
    ShutForGood(ss, es, i, j);
  }

  // ------------------------------------------------------- how messages are received

  /** The message the transport announced last. */
  function LastArrival(es: seq<Event>): Option<Payload> {
    if es == [] then None
    else if es[|es| - 1].Arrive? then Some(es[|es| - 1].p)
    else LastArrival(es[..|es| - 1])
  }

  lemma {:induction false} EnteringIsArrival(ss: seq<State>, es: seq<Event>, k: nat)
    requires IsRun(ss, es) && k < |ss|
    ensures ss[k].sh.receive.Entering? ==> LastArrival(es[..k]) == Some(ss[k].sh.receive.p)
  {
    if k > 0 {
      EnteringIsArrival(ss, es, k - 1);
      assert Follows(ss, es, k - 1);
      assert es[..k][..k - 1] == es[..k - 1];
    }
  }

  /** The message a step hands to OnMessage. */
  function Offered(before: seq<Event>, e: Event): Option<Payload> {
    match e
    case Enter(found, _, _) => if found then LastArrival(before) else None
    case Deliver(p, _, _) => Some(p)
    case _ => None
  }

  /** The code a message is refused with: 13 into a full slot, 8 if it is too large, 3 if it does
      not parse. */
  function RefusedWith(b: Mailbox, p: Payload): Option<StatusCode> {
    if b.rejected || b.remoteEnd || b.terminal then None
    else if b.message.Some? then Some(13)
    else if p.size > 0x7fff_ffff then Some(8)
    else if p.parsed.None? then Some(3)
    else None
  }

  /** The request a step puts into the slot. */
  function AcceptedAt(s: State, before: seq<Event>, e: Event): seq<string> {
    var b := s.sh.box;
    match Offered(before, e)
    case None => []
    case Some(p) =>
      if b.rejected || b.remoteEnd || b.terminal || b.message.Some? || p.size > 0x7fff_ffff || p.parsed.None? then []
      else [p.parsed.value]
  }

  ghost function AcceptedBy(ss: seq<State>, es: seq<Event>, k: nat): seq<string>
    requires IsRun(ss, es) && k < |ss|
  {
    if k == 0 then [] else AcceptedBy(ss, es, k - 1) + AcceptedAt(ss[k - 1], es[..k - 1], es[k - 1])
  }

  /** What handing over message `p` does. */
  ghost predicate Receives(sh: Shared, p: Payload, a: ErrorCode, b: ErrorCode, sh': Shared) {
    match RefusedWith(sh.box, p)
    case None => sh'.call == sh.call && sh'.trace == sh.trace && sh'.box.rejected == sh.box.rejected
    case Some(code) =>
      && sh'.box == sh.box.(rejected := true)
      && sh'.call == Finish(sh.call, sh.trace, code, a, b).call
      && sh'.trace == Finish(sh.call, sh.trace, code, a, b).trace
  }

  lemma RefusalCodes(b: Mailbox, p: Payload)
    ensures Judge(b, p).Refused? <==> RefusedWith(b, p).Some?
    ensures Judge(b, p).Refused? ==> RefusalCode(Judge(b, p).why) == RefusedWith(b, p).value
  {
  }

  lemma MessageReceives(sh: Shared, p: Payload, a: ErrorCode, b: ErrorCode)
    ensures Receives(sh, p, a, b, OnMessage(sh, p, a, b))
  {
    RefusalCodes(sh.box, p);
    if RefusedWith(sh.box, p).Some? {
      var code := RefusedWith(sh.box, p).value;
      assert Judge(sh.box, p).Refused?;
      assert OnMessage(sh, p, a, b).call == Finish(sh.call, sh.trace, code, a, b).call;
    } else {
      assert !Judge(sh.box, p).Refused?;
    }
  }

  /** Over any run: a message handed over is refused with 13, 8 or 3 for its reason and shuts the
      mailbox, or else changes nothing that is on the wire. */
  lemma MessagesReceived(ss: seq<State>, es: seq<Event>, k: nat)
    requires IsRun(ss, es) && k < |es|
    ensures match Offered(es[..k], es[k])
            case Some(p) => Receives(ss[k].sh, p, es[k].a, es[k].b, ss[k + 1].sh)
            case None => es[k].Enter? ==> !es[k].found && ss[k + 1].sh.box == ss[k].sh.box
  {
    assert Follows(ss, es, k);
    EnteringIsArrival(ss, es, k);
    match es[k]
    case Enter(found, a, b) => MessageReceives(ss[k].sh, ss[k].sh.receive.p, a, b);
    case Deliver(p, a, b) => MessageReceives(ss[k].sh, p, a, b);
    case _ =>
  }

  lemma AcceptedStep(s: State, before: seq<Event>, e: Event, s': State)
    requires Enabled(s, e) && s' == Step(s, e)
    requires s.sh.receive.Entering? ==> LastArrival(before) == Some(s.sh.receive.p)
    ensures s'.sh.accepted == s.sh.accepted + AcceptedAt(s, before, e)
  {
  }

  /** The accepted requests are the parsed messages handed over while the mailbox was open and
      its slot empty, in order. */
  lemma {:induction false} AcceptedExactly(ss: seq<State>, es: seq<Event>, k: nat)
    requires IsRun(ss, es) && k < |ss|
    ensures ss[k].sh.accepted == AcceptedBy(ss, es, k)
  {
    if k > 0 {
      AcceptedExactly(ss, es, k - 1);
      EnteringIsArrival(ss, es, k - 1);
      assert Follows(ss, es, k - 1);
      AcceptedStep(ss[k - 1], es[..k - 1], es[k - 1], ss[k]);
    }
  }

  /** A waiting Read goes on exactly if a request is there or the stream is over in any way, and
      then returns false exactly if there is none. */
  lemma ReaderWakes(s: State, t: Tid)
    requires t in s.readers && s.readers[t] == Waiting
    ensures var b := s.sh.box;
            && (Enabled(s, Read(t)) <==> b.message.Some? || b.remoteEnd || b.rejected || b.cancelled || b.terminal)
            && (Enabled(s, Read(t)) ==> (Step(s, Read(t)).readers[t] == Away(False) <==> b.message.None?))
  {
  }

  /** The answer to a resume on an open call of a live, polite transport. */
  function ResumeAnswer(r: Receive, answer: ErrorCode): ErrorCode {
    if r == Ready then InvalidState else if r == Paused then answer else Ok
  }

  /** A Read whose resume is answered by anything but Ok, Closed or Unavailable finishes the call
      with 13; whatever the answer, the request is returned. */
  lemma ResumeMeans(s: State, e: Event, s': State)
    requires e.Resume? && Enabled(s, e) && s' == Step(s, e)
    ensures var error := if Over(s.sh.call) || !s.sh.alive then Closed
                         else if s.sh.polite then ResumeAnswer(s.sh.receive, e.answer)
                         else e.answer;
            s'.readers[e.t] == if error != Ok && error != Closed && error != Unavailable
                               then Failing(s.readers[e.t].request) else Away(Got(s.readers[e.t].request))
  {
  }

  lemma FailMeans(s: State, e: Event, s': State)
    requires e.Fail? && Enabled(s, e) && s' == Step(s, e) && Tracked(s.sh.call, s.sh.trace)
    ensures s'.readers[e.t] == Away(Got(s.readers[e.t].request))
    ensures TypedCall.Finished(s'.sh.trace) && !TypedCall.Finished(s.sh.trace) ==> s'.sh.trace.last == Trailers(13)
  {
    FinishTracked(s.sh.call, s.sh.trace, INTERNAL, e.a, e.b);
  }

  // --------------------------------------------------------------------- no stalling

  /** Unless the call is over, an empty mailbox nobody has to resume will be filled. */
  predicate Flows(sh: Shared) {
    sh.alive && !Over(sh.call) && !Awake(sh.box) && sh.owner.None? ==>
      sh.receive != Paused && sh.receive != Leaving(false)
  }

  /** A message the service cannot retain the call for, or a resume that cannot be queued, while
      the open call has nothing else to wake a reader. */
  predicate Stalls(sh: Shared, e: Event) {
    && sh.alive && !Over(sh.call) && !Awake(sh.box)
    && ((e.Enter? && !e.found) || (e.Resume? && sh.receive == Paused && e.answer != Ok))
  }

  lemma OverStays(c: Call, t: Trace, e: TypedCall.Event)
    requires Over(c)
    ensures Over(Apply(c, t, e).call)
  {
  }

  lemma EnterStalls(s: State, e: Event, s': State)
    requires Inv(s) && s.sh.polite && e.Enter? && Enabled(s, e) && s' == Step(s, e)
    ensures Flows(s.sh) && !Flows(s'.sh) <==> Stalls(s.sh, e)
  {
  }

  lemma ResumeStalls(s: State, e: Event, s': State)
    requires Inv(s) && s.sh.polite && e.Resume? && Enabled(s, e) && s' == Step(s, e)
    ensures Flows(s.sh) && !Flows(s'.sh) <==> Stalls(s.sh, e)
  {
    assert s.sh.owner == Some(e.t);
  }

  lemma OthersFlow(s: State, e: Event, s': State)
    requires Inv(s) && s.sh.polite && !e.Enter? && !e.Resume? && Enabled(s, e) && s' == Step(s, e) && Flows(s.sh)
    ensures Flows(s'.sh)
  {
    if e.Elsewhere? && Over(s.sh.call) {
      OverStays(s.sh.call, s.sh.trace, e.use);
    }
  }

  /** A step stalls the stream exactly when it delivers a message the service cannot retain the
      call for, or fails to queue a resume, on an open call with nothing to wake a reader. */
  lemma StallsExactlyWhen(s: State, e: Event, s': State)
    requires Inv(s) && s.sh.polite && Enabled(s, e) && s' == Step(s, e)
    ensures Flows(s.sh) && !Flows(s'.sh) <==> Stalls(s.sh, e)
  {
    if e.Enter? {
      EnterStalls(s, e, s');
    } else if e.Resume? {
      ResumeStalls(s, e, s');
    } else if Flows(s.sh) {
      OthersFlow(s, e, s');
    }
  }

  lemma PolicyStays(s: State, e: Event, s': State)
    requires Enabled(s, e) && s' == Step(s, e)
    ensures s'.sh.polite == s.sh.polite
  {
  }

  /** Over any run with a polite transport: a stream that does not flow was stalled by one of
      its steps, so without such a step a waiting reader of an open call is waiting for a
      message that may still come, or for another reader's resume. */
  lemma {:induction false} StalledByAStep(ss: seq<State>, es: seq<Event>, k: nat)
    requires IsRun(ss, es) && k < |ss| && ss[k].sh.polite
    ensures Flows(ss[k].sh) || exists i | 0 <= i < k :: Stalls(ss[i].sh, es[i])
  {
    if k > 0 {
      RunKeeps(ss, es, k - 1);
      assert Follows(ss, es, k - 1);
      PolicyStays(ss[k - 1], es[k - 1], ss[k]);
      StalledByAStep(ss, es, k - 1);
      StallsExactlyWhen(ss[k - 1], es[k - 1], ss[k]);
    }
  }

  /** A stream with one reader, waiting, and a transport at `r`. */
  function Lonely(r: Receive): State {
    State(Shared(true, NEW_MAILBOX, NEW_CALL, Nil, r, true, None, [], [], false, false), map[0 := Waiting])
  }

  lemma DroppedSteps(p: Payload)
    ensures Enabled(Lonely(Ready), Arrive(p))
    ensures Step(Lonely(Ready), Arrive(p)) == Lonely(Entering(p, false))
    ensures Step(Lonely(Entering(p, false)), Enter(false, Ok, Ok)) == Lonely(Leaving(false))
    ensures Step(Lonely(Leaving(false)), Leave) == Lonely(Paused)
  {
  }

  lemma DroppedFollows(p: Payload, ss: seq<State>, es: seq<Event>)
    requires es == [Read(0), Arrive(p), Enter(false, Ok, Ok), Leave]
    requires ss == [Lonely(Ready).(readers := map[0 := Away(Nothing)]), Lonely(Ready), Lonely(Entering(p, false)),
                    Lonely(Leaving(false)), Lonely(Paused)]
    ensures IsRun(ss, es)
  {
    DroppedSteps(p);
    assert ss[0].readers[0 := Waiting] == map[0 := Waiting];
    assert Follows(ss, es, 0) && Follows(ss, es, 1) && Follows(ss, es, 2) && Follows(ss, es, 3);
  }

  /** Such a stall is reachable: the call cannot be retained for the first message, and the
      reader waits on an open call whose transport is paused for good. */
  lemma DroppedMessageStalls(p: Payload)
    ensures exists ss: seq<State>, es: seq<Event> ::
              && IsRun(ss, es) && es == [Read(0), Arrive(p), Enter(false, Ok, Ok), Leave]
              && ss[4] == Lonely(Paused) && !Enabled(ss[4], Read(0)) && !Flows(ss[4].sh)
  {
    var es := [Read(0), Arrive(p), Enter(false, Ok, Ok), Leave];
    var s0 := Lonely(Ready).(readers := map[0 := Away(Nothing)]);
    var ss := [s0, Lonely(Ready), Lonely(Entering(p, false)), Lonely(Leaving(false)), Lonely(Paused)];
    DroppedFollows(p, ss, es);
  }
}
