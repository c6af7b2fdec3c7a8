/** What the client call promises over every run: any number of threads, any interleaving,
    any transport that honours its contract. */
module ClientTheorems {
  import opened Statuses
  import opened ClientCall
  import opened ClientMachine
  import opened ClientProofs
  import opened Histories

  /** The payloads handed to on_message by a sequence of events. */
  function Payloads(es: seq<Event>): seq<string> {
    if es == [] then []
    else
      var last := es[|es| - 1];
      Payloads(es[..|es| - 1]) + (if last.Transport? && last.n.Deliver? then [last.n.payload] else [])
  }

  lemma DeliveredStep(s: State, e: Event)
    requires Inv(s) && Enabled(s, e)
    ensures Step(s, e).sh.delivered == s.sh.delivered + Payloads([e])
  {
    assert [e][..0] == [];
    if e.Thread? {
      OwnStep(s.sh, e.t, s.threads[e.t], e.c);
    }
  }

  lemma {:induction false} DeliveredIsPayloads(ss: seq<State>, es: seq<Event>, i: nat)
    requires IsRun(ss, es) && i < |ss|
    ensures ss[i].sh.delivered == Payloads(es[..i])
  {
    if i > 0 {
      DeliveredIsPayloads(ss, es, i - 1);
      RunKeeps(ss, es, i - 1);
      assert Follows(ss, es, i - 1);
      DeliveredStep(ss[i - 1], es[i - 1]);
      assert es[..i][..i - 1] == es[..i - 1];
      assert [es[i - 1]][..0] == [];
    }
  }

  // ------------------------------------------------------------- what Read hands out

  /** The message a step takes out of the slot. */
  function TakenAt(s: State, e: Event): seq<Entry<string>> {
    if e.Thread? && e.t in s.threads && s.threads[e.t].ReadWait? && s.sh.f.hasMessage
    then [Entry(e.t, s.sh.f.message)]
    else []
  }

  /** The message a step returns from Read to its caller. */
  function ReturnedAt(s: State, e: Event): seq<Entry<string>>
    requires Enabled(s, e)
  {
    if e.Transport? then []
    else
      match Do(s.sh, e.t, s.threads[e.t], e.c).1
      case Ret(_, Got(Some(p))) => [Entry(e.t, p)]
      case _ => []
  }

  ghost function Taken(ss: seq<State>, es: seq<Event>, i: nat): seq<Entry<string>>
    requires IsRun(ss, es) && i < |ss|
  {
    if i == 0 then [] else Taken(ss, es, i - 1) + TakenAt(ss[i - 1], es[i - 1])
  }

  ghost function Returned(ss: seq<State>, es: seq<Event>, i: nat): seq<Entry<string>>
    requires IsRun(ss, es) && i < |ss|
  {
    if i == 0 then []
    else
      assert Follows(ss, es, i - 1);
      Returned(ss, es, i - 1) + ReturnedAt(ss[i - 1], es[i - 1])
  }

  /** The message a thread has taken and not returned yet. */
  function InHand(pc: Pc): seq<string> {
    if pc.ReadResume? || pc.ReadFail? then [pc.payload] else []
  }

  /** A step of a reading thread: what it takes it has in hand, and what it has in hand it returns. */
  lemma ReadMoves(sh: Shared, t: Tid, pc: Pc, c: Choice)
    requires InRead(pc) && Can(sh, t, pc, c)
    ensures var (sh', n) := DoRead(sh, t, pc, c);
            && sh'.returned == sh.returned + (if pc.ReadWait? && sh.f.hasMessage then [sh.f.message] else [])
            && InHand(pc) + (if pc.ReadWait? && sh.f.hasMessage then [sh.f.message] else [])
                 == (if n.Ret? && n.out.Got? && n.out.payload.Some? then [n.out.payload.value] else []) + InHand(Land(n))
  {
  }

  /** No other step takes, holds or returns a message. */
  lemma OthersReadNothing(sh: Shared, t: Tid, pc: Pc, c: Choice)
    requires !InRead(pc) && Can(sh, t, pc, c)
    ensures var (sh', n) := Do(sh, t, pc, c);
            sh'.returned == sh.returned && (n.Ret? ==> !n.out.Got?) && InHand(Land(n)) == []
  {
  }

  lemma TakenStep(s: State, e: Event, s': State, t: Tid)
    requires Enabled(s, e) && s' == Step(s, e) && t in s.threads
    ensures t in s'.threads && s'.sh.returned == s.sh.returned + Items(TakenAt(s, e))
    ensures InHand(s.threads[t]) + By(TakenAt(s, e), t) == By(ReturnedAt(s, e), t) + InHand(s'.threads[t])
  {
    if e.Thread? {
      var pc := s.threads[e.t];
      if TakenAt(s, e) != [] { One(TakenAt(s, e)[0], t); }
      if ReturnedAt(s, e) != [] { One(ReturnedAt(s, e)[0], t); }
      if InRead(pc) {
        ReadMoves(s.sh, e.t, pc, e.c);
      } else {
        OthersReadNothing(s.sh, e.t, pc, e.c);
      }
    }
  }

  lemma TakenExtends(taken: seq<Entry<string>>, returned: seq<Entry<string>>, s: State, e: Event, s': State, t: Tid)
    requires Enabled(s, e) && s' == Step(s, e) && t in s.threads
    requires Items(taken) == s.sh.returned && By(taken, t) == By(returned, t) + InHand(s.threads[t])
    ensures t in s'.threads
    ensures Items(taken + TakenAt(s, e)) == s'.sh.returned
    ensures By(taken + TakenAt(s, e), t) == By(returned + ReturnedAt(s, e), t) + InHand(s'.threads[t])
  {
    TakenStep(s, e, s', t);
    Extends(taken, returned, TakenAt(s, e), ReturnedAt(s, e), t, InHand(s.threads[t]), InHand(s'.threads[t]));
  }

  lemma {:induction false} TakenIsReturned(ss: seq<State>, es: seq<Event>, i: nat, t: Tid)
    requires IsRun(ss, es) && i < |ss| && t in ss[i].threads
    ensures Items(Taken(ss, es, i)) == ss[i].sh.returned
    ensures By(Taken(ss, es, i), t) == By(Returned(ss, es, i), t) + InHand(ss[i].threads[t])
  {
    if i > 0 {
      assert Follows(ss, es, i - 1);
      SameThreads(ss[i - 1], es[i - 1], ss[i], t);
      TakenIsReturned(ss, es, i - 1, t);
      TakenExtends(Taken(ss, es, i - 1), Returned(ss, es, i - 1), ss[i - 1], es[i - 1], ss[i], t);
    }
  }

  lemma SameThreads(s: State, e: Event, s': State, t: Tid)
    requires Enabled(s, e) && s' == Step(s, e)
    ensures t in s'.threads <==> t in s.threads
  {
  }

  /** Mailbox conservation: the messages taken by all threads, followed by the buffered one, are
      exactly what the transport delivered, in order; and every thread's Reads have returned, in
      order and once each, what the thread took, but for one still in its hands. */
  lemma MailboxConserved(ss: seq<State>, es: seq<Event>, i: nat, t: Tid)
    requires IsRun(ss, es) && i < |ss| && t in ss[i].threads
    ensures Payloads(es[..i]) == Items(Taken(ss, es, i)) + Buffered(ss[i].sh.f)
    ensures By(Taken(ss, es, i), t) == By(Returned(ss, es, i), t) + InHand(ss[i].threads[t])
  {
    RunKeeps(ss, es, i);
    DeliveredIsPayloads(ss, es, i);
    TakenIsReturned(ss, es, i, t);
  }

  /** "May deliver", "slot full" and "a reader owes a resume" never hold two at a time: a delivery
      never overwrites a message, and at most one reader at a time has yet to resume. */
  lemma OneAtATime(ss: seq<State>, es: seq<Event>, i: nat, t: Tid, u: Tid)
    requires IsRun(ss, es) && i < |ss| && t in ss[i].threads && u in ss[i].threads
    ensures forall p :: CanNet(ss[i].sh, Deliver(p)) ==> !ss[i].sh.f.hasMessage
    ensures ss[i].threads[t].ReadResume? && ss[i].threads[u].ReadResume? ==>
              t == u && !ss[i].sh.f.hasMessage && !ss[i].sh.net.mayDeliver
  {
    RunKeeps(ss, es, i);
    assert Loc(ss[i].sh, t, ss[i].threads[t]) && Loc(ss[i].sh, u, ss[i].threads[u]);
  }

  /** The thread waits on `changed_` and its condition is false. */
  predicate Blocked(sh: Shared, pc: Pc) {
    match pc
    case CmdWait(_, _, gen) => !sh.f.terminal && sh.f.generation == gen
    case CmdWaitTerminal(_) => !sh.f.terminal
    case ReadWait(_) => !sh.f.hasMessage && !sh.f.terminal
    case FinishWait(_) => !sh.f.terminal
    case _ => false
  }

  /** No lost wakeup: whoever sleeps is owed an event. The stream is still live, so on_terminal
      is yet to come. Unless the stream was cancelled, a sender waiting for room is also owed
      on_writable, and a reader waits for a message that may still come, for another reader's
      resume, or on a stream that refused one. */
  lemma NoLostWakeup(ss: seq<State>, es: seq<Event>, i: nat, t: Tid)
    requires IsRun(ss, es) && i < |ss| && t in ss[i].threads
    requires Blocked(ss[i].sh, ss[i].threads[t])
    ensures Live(ss[i].sh)
    ensures ss[i].threads[t].CmdWait? ==> ss[i].sh.net.owesWritable || ss[i].sh.net.cancelled
    ensures ss[i].threads[t].ReadWait? ==>
              ss[i].sh.net.mayDeliver || ss[i].sh.resumeOwner.Some? || ss[i].sh.net.refused || ss[i].sh.net.cancelled
  {
    RunKeeps(ss, es, i);
    assert Loc(ss[i].sh, t, ss[i].threads[t]);
  }

  lemma OwnerStep(s: State, e: Event, s': State)
    requires Inv(s) && Enabled(s, e) && s' == Step(s, e)
    requires s.sh.commandOwner.Some? ==> s.sh.commandOwner.value in s.threads
    ensures s'.sh.commandOwner.Some? ==> s'.sh.commandOwner.value in s'.threads
  {
    if e.Thread? {
      OwnStep(s.sh, e.t, s.threads[e.t], e.c);
    }
  }

  lemma {:induction false} OwnerIsThread(ss: seq<State>, es: seq<Event>, i: nat)
    requires IsRun(ss, es) && i < |ss|
    ensures ss[i].sh.commandOwner.Some? ==> ss[i].sh.commandOwner.value in ss[i].threads
  {
    if i > 0 {
      OwnerIsThread(ss, es, i - 1);
      RunKeeps(ss, es, i - 1);
      assert Follows(ss, es, i - 1);
      OwnerStep(ss[i - 1], es[i - 1], ss[i]);
    }
  }

  /** A choice that lets a thread go on, whatever the transport is asked. */
  function Onward(pc: Pc): Choice {
    if pc.OpenMetadata? || pc.OpenStart? || pc.CmdRun? || pc.ReadResume? then Answer(Closed) else Go
  }

  /** No deadlock: a thread inside an operation can go on, or sleeps on `changed_` and is owed an
      event, or waits for `command_mutex_`, whose holder can go on. */
  lemma NoDeadlock(ss: seq<State>, es: seq<Event>, i: nat, t: Tid)
    requires IsRun(ss, es) && i < |ss| && t in ss[i].threads
    requires !ss[i].threads[t].Idle? && !ss[i].threads[t].UnaryDone? && !Blocked(ss[i].sh, ss[i].threads[t])
    ensures var sh, threads := ss[i].sh, ss[i].threads;
            || Can(sh, t, threads[t], Onward(threads[t]))
            || (&& sh.commandOwner.Some? && sh.commandOwner != Some(t)
                && sh.commandOwner.value in threads
                && Can(sh, sh.commandOwner.value, threads[sh.commandOwner.value], Go))
  {
    RunKeeps(ss, es, i);
    OwnerIsThread(ss, es, i);
    var sh, threads := ss[i].sh, ss[i].threads;
    assert Loc(sh, t, threads[t]);
    if sh.commandOwner.Some? {
      assert Loc(sh, sh.commandOwner.value, threads[sh.commandOwner.value]);
    }
  }

  // ------------------------------------------------------------ what commands are sent

  /** The command the transport accepts in a step. */
  function AcceptedAt(s: State, e: Event): seq<Entry<Command>> {
    if e.Thread? && e.t in s.threads && s.threads[e.t].CmdRun? && e.c == Answer(Ok)
    then [Entry(e.t, s.threads[e.t].cmd)]
    else []
  }

  ghost function Accepted(ss: seq<State>, es: seq<Event>, i: nat): seq<Entry<Command>>
    requires IsRun(ss, es) && i < |ss|
  {
    if i == 0 then [] else Accepted(ss, es, i - 1) + AcceptedAt(ss[i - 1], es[i - 1])
  }

  lemma ByAfter(hs: seq<Entry<Command>>, s: State, e: Event, t: Tid)
    ensures By(hs + AcceptedAt(s, e), t) == By(hs, t) + By(AcceptedAt(s, e), t)
    ensures By(AcceptedAt(s, e), t) == if AcceptedAt(s, e) != [] && e.t == t then [s.threads[t].cmd] else []
  {
    Concat(hs, AcceptedAt(s, e), t);
    if AcceptedAt(s, e) != [] {
      One(AcceptedAt(s, e)[0], t);
    }
  }

  /** `pc` is inside RunCommand, called with `cmd` and continuing with `k`. */
  predicate Running(pc: Pc, k: Kont, cmd: Command) {
    match pc
    case CmdSnapshot(k', cmd') => k' == k && cmd' == cmd
    case CmdRun(k', cmd', _) => k' == k && cmd' == cmd
    case CmdWait(k', cmd', _) => k' == k && cmd' == cmd
    case CmdWaitTerminal(k') => k' == k
    case CmdFail(k', _) => k' == k
    case _ => false
  }

  /** One step of RunCommand: it goes on and nothing was accepted, or it returns, and its
      command was accepted exactly if it says so. */
  lemma RunningMoves(sh: Shared, t: Tid, pc: Pc, c: Choice, k: Kont, cmd: Command)
    requires Running(pc, k, cmd) && Can(sh, t, pc, c)
    ensures var (sh', n) := DoCommand(sh, t, pc, c);
            if n.Jump? then Running(n.pc, k, cmd) && !(pc.CmdRun? && c == Answer(Ok))
            else
              && n.k == k && n.out.Ran? && n.out.ran == (if pc.CmdRun? && c == Answer(Ok) then 1 else 0)
              && (pc.CmdRun? ==> pc.cmd == cmd)
  {
  }

  /** What a step by anyone does to a RunCommand of thread `t` for an application thread. */
  lemma RunningStep(s: State, e: Event, s': State, t: Tid, cmd: Command)
    requires Enabled(s, e) && s' == Step(s, e) && t in s.threads && Running(s.threads[t], App, cmd)
    ensures t in s'.threads
    ensures var added := By(AcceptedAt(s, e), t);
            || (Running(s'.threads[t], App, cmd) && added == [])
            || (s'.threads[t].Idle? && s'.threads[t].last.Ran? && s'.threads[t].last.ran <= 1
                && added == if s'.threads[t].last.ran == 1 then [cmd] else [])
  {
    ByAfter([], s, e, t);
    if e.Thread? && e.t == t {
      RunningMoves(s.sh, t, s.threads[t], e.c, App, cmd);
    }
  }

  /** How far the RunCommand is that began when `before` had been accepted from thread `t`. */
  ghost predicate Sending(pc: Pc, before: seq<Command>, now: seq<Command>, cmd: Command) {
    || (Running(pc, App, cmd) && now == before)
    || (pc.Idle? && pc.last.Ran? && pc.last.ran <= 1 && now == before + if pc.last.ran == 1 then [cmd] else [])
  }

  lemma SendingStarts(hs: seq<Entry<Command>>, s: State, e: Event, s': State, t: Tid, cmd: Command)
    requires Enabled(s, e) && s' == Step(s, e) && e == Thread(t, StartCommand(cmd))
    ensures t in s'.threads && Sending(s'.threads[t], By(hs, t), By(hs + AcceptedAt(s, e), t), cmd)
  {
    ByAfter(hs, s, e, t);
  }

  lemma SendingGoesOn(before: seq<Command>, hs: seq<Entry<Command>>, s: State, e: Event, s': State, t: Tid, cmd: Command)
    requires Enabled(s, e) && s' == Step(s, e) && t in s.threads && !s.threads[t].Idle?
    requires Sending(s.threads[t], before, By(hs, t), cmd)
    ensures t in s'.threads && Sending(s'.threads[t], before, By(hs + AcceptedAt(s, e), t), cmd)
  {
    ByAfter(hs, s, e, t);
    RunningStep(s, e, s', t, cmd);
  }

  /** From the step that starts it until it returns, RunCommand has had nothing accepted; when it
      returns it has had exactly as many commands accepted as it reports, none or one, and
      that one is the command asked for. */
  lemma {:induction false} CommandSentOnce(ss: seq<State>, es: seq<Event>, i: nat, j: nat, t: Tid, cmd: Command)
    requires IsRun(ss, es) && i < j < |ss| && es[i] == Thread(t, StartCommand(cmd))
    requires forall m | i < m < j :: t in ss[m].threads && !ss[m].threads[t].Idle?
    ensures t in ss[j].threads
    ensures Sending(ss[j].threads[t], By(Accepted(ss, es, i), t), By(Accepted(ss, es, j), t), cmd)
  {
    assert Follows(ss, es, j - 1);
    if j == i + 1 {
      SendingStarts(Accepted(ss, es, i), ss[i], es[i], ss[j], t, cmd);
    } else {
      assert !ss[j - 1].threads[t].Idle?;
      CommandSentOnce(ss, es, i, j - 1, t, cmd);
      SendingGoesOn(By(Accepted(ss, es, i), t), Accepted(ss, es, j - 1), ss[j - 1], es[j - 1], ss[j], t, cmd);
    }
  }

  /** What a returned Send or CloseSend means: success without an accepted command means that
      the call had already ended well; failure means that none was accepted and the call is
      terminal, so a Finish does not block. */
  lemma CommandOutcome(ss: seq<State>, es: seq<Event>, i: nat, j: nat, t: Tid, cmd: Command)
    requires IsRun(ss, es) && i < j < |ss| && es[i] == Thread(t, StartCommand(cmd))
    requires forall m | i < m < j :: t in ss[m].threads && !ss[m].threads[t].Idle?
    requires t in ss[j].threads && ss[j].threads[t].Idle?
    ensures ss[j].threads[t].last.Ran?
    ensures var status, sh := ss[j].threads[t].last.status, ss[j].sh;
            var before, now := By(Accepted(ss, es, i), t), By(Accepted(ss, es, j), t);
            && (now == before || now == before + [cmd])
            && (status.IsOk() && now == before ==> sh.f.terminal && sh.f.status.IsOk())
            && (!status.IsOk() ==> now == before && Can(sh, t, FinishWait(App), Go))
  {
    CommandSentOnce(ss, es, i, j, t, cmd);
    RunKeeps(ss, es, j);
    assert Loc(ss[j].sh, t, ss[j].threads[t]);
    var before, now := By(Accepted(ss, es, i), t), By(Accepted(ss, es, j), t);
    assert ss[j].threads[t].last.ran == 1 ==> |now| == |before| + 1;
  }

  /** The commands CallUnary has had accepted by the time it stands at `pc`. */
  ghost predicate SentBy(pc: Pc, terminal: bool, sent: seq<Command>, request: string) {
    var all := [SendMessage(request), HalfClose];
    if pc.CmdSnapshot? || pc.CmdRun? || pc.CmdWait? then
      if pc.k == AfterSend then sent == [] && pc.cmd == SendMessage(request)
      else
        && pc.k == AfterClose && pc.cmd == HalfClose
        && (sent == all[..1] || (sent == [] && terminal && pc.CmdSnapshot?))
    else if InOpen(pc) then sent == [] && pc.k == AfterOpen(request)
    else if pc.CmdWaitTerminal? || pc.CmdFail? then
      (pc.k == AfterSend && sent == []) || (pc.k == AfterClose && sent == all[..1])
    else
      (InRead(pc) || InFinish(pc) || pc.UnaryDone? || ((pc.CancelMark? || pc.CancelSend?) && pc.k.AfterCancel?))
      && sent <= all
  }

  /** The command a step of CallUnary has accepted. */
  function Adds(pc: Pc, c: Choice): seq<Command> {
    if pc.CmdRun? && c == Answer(Ok) then [pc.cmd] else []
  }

  lemma UnaryCommandMoves(sh: Shared, t: Tid, pc: Pc, c: Choice, sent: seq<Command>, request: string)
    requires InCommand(pc) && Can(sh, t, pc, c) && SentBy(pc, sh.f.terminal, sent, request)
    ensures var (sh', n) := DoCommand(sh, t, pc, c);
            SentBy(Land(n), sh'.f.terminal, sent + Adds(pc, c), request)
  {
    if Adds(pc, c) == [] {
      assert sent + Adds(pc, c) == sent;
    } else {
      assert [SendMessage(request), HalfClose][..1] + [HalfClose] == [SendMessage(request), HalfClose];
    }
  }

  lemma UnaryOpenMoves(sh: Shared, t: Tid, pc: Pc, c: Choice, request: string)
    requires InOpen(pc) && Can(sh, t, pc, c) && SentBy(pc, sh.f.terminal, [], request)
    ensures var (sh', n) := DoOpen(sh, t, pc, c); SentBy(Land(n), sh'.f.terminal, [], request)
  {
  }

  lemma UnaryReadMoves(sh: Shared, t: Tid, pc: Pc, c: Choice, sent: seq<Command>, request: string)
    requires sh.unary && t == sh.opener && Mode(sh, t, pc) && Can(sh, t, pc, c)
    requires InRead(pc) && SentBy(pc, sh.f.terminal, sent, request)
    ensures var (sh', n) := DoRead(sh, t, pc, c); SentBy(Land(n), sh'.f.terminal, sent, request)
  {
  }

  lemma UnaryCancelMoves(sh: Shared, t: Tid, pc: Pc, c: Choice, sent: seq<Command>, request: string)
    requires sh.unary && t == sh.opener && Mode(sh, t, pc) && Can(sh, t, pc, c)
    requires InCancel(pc) && SentBy(pc, sh.f.terminal, sent, request)
    ensures var (sh', n) := DoCancel(sh, t, pc); SentBy(Land(n), sh'.f.terminal, sent, request)
  {
  }

  lemma UnaryFinishMoves(sh: Shared, t: Tid, pc: Pc, c: Choice, sent: seq<Command>, request: string)
    requires sh.unary && t == sh.opener && Mode(sh, t, pc) && Can(sh, t, pc, c)
    requires InFinish(pc) && SentBy(pc, sh.f.terminal, sent, request)
    ensures var (sh', n) := DoFinish(sh, pc); SentBy(Land(n), sh'.f.terminal, sent, request)
  {
  }

  lemma UnaryMoves(sh: Shared, t: Tid, pc: Pc, c: Choice, sent: seq<Command>, request: string)
    requires sh.unary && t == sh.opener && Mode(sh, t, pc) && Can(sh, t, pc, c)
    requires SentBy(pc, sh.f.terminal, sent, request)
    ensures var (sh', n) := Do(sh, t, pc, c);
            SentBy(Land(n), sh'.f.terminal, sent + Adds(pc, c), request)
  {
    if InCommand(pc) {
      UnaryCommandMoves(sh, t, pc, c, sent, request);
    } else {
      assert sent + Adds(pc, c) == sent;
      if InOpen(pc) {
        UnaryOpenMoves(sh, t, pc, c, request);
      } else if InRead(pc) {
        UnaryReadMoves(sh, t, pc, c, sent, request);
      } else if InCancel(pc) {
        UnaryCancelMoves(sh, t, pc, c, sent, request);
      } else {
        UnaryFinishMoves(sh, t, pc, c, sent, request);
      }
    }
  }

  /** A unary call as it goes on: only its own thread sends, and only what is due. */
  ghost predicate UnarySending(s: State, hs: seq<Entry<Command>>, request: string) {
    && s.sh.unary && s.sh.opener in s.threads
    && (forall i | 0 <= i < |hs| :: hs[i].t == s.sh.opener)
    && SentBy(s.threads[s.sh.opener], s.sh.f.terminal, By(hs, s.sh.opener), request)
  }

  /** Only the thread of a unary call has commands accepted. */
  lemma OthersSendNothing(s: State, e: Event)
    requires Inv(s) && s.sh.unary && e != Thread(s.sh.opener, Answer(Ok))
    ensures AcceptedAt(s, e) == []
  {
    if e.Thread? && e.t in s.threads {
      assert Loc(s.sh, e.t, s.threads[e.t]);
    }
  }

  lemma TermsStay(s: State, e: Event, s': State)
    requires Inv(s) && Enabled(s, e) && s' == Step(s, e)
    ensures s'.sh.unary == s.sh.unary && s'.sh.opener == s.sh.opener && (s.sh.f.terminal ==> s'.sh.f.terminal)
    ensures forall t | t in s.threads :: t in s'.threads
    ensures forall t | t in s.threads && !(e.Thread? && e.t == t) :: s'.threads[t] == s.threads[t]
  {
    if e.Thread? {
      OwnStep(s.sh, e.t, s.threads[e.t], e.c);
    }
  }

  lemma UnaryOwnStep(s: State, c: Choice, hs: seq<Entry<Command>>, request: string)
    requires Inv(s) && s.sh.unary && s.sh.opener in s.threads
    requires SentBy(s.threads[s.sh.opener], s.sh.f.terminal, By(hs, s.sh.opener), request)
    requires Enabled(s, Thread(s.sh.opener, c))
    ensures var o, e := s.sh.opener, Thread(s.sh.opener, c);
            SentBy(Step(s, e).threads[o], Step(s, e).sh.f.terminal, By(hs + AcceptedAt(s, e), o), request)
  {
    var o := s.sh.opener;
    assert Loc(s.sh, o, s.threads[o]);
    ByAfter(hs, s, Thread(o, c), o);
    UnaryMoves(s.sh, o, s.threads[o], c, By(hs, o), request);
  }

  lemma UnarySendingStep(s: State, e: Event, s': State, hs: seq<Entry<Command>>, request: string)
    requires Inv(s) && Enabled(s, e) && s' == Step(s, e) && UnarySending(s, hs, request)
    ensures UnarySending(s', hs + AcceptedAt(s, e), request)
  {
    var o := s.sh.opener;
    TermsStay(s, e, s');
    if e.Thread? && e.t == o {
      UnaryOwnStep(s, e.c, hs, request);
    } else {
      OthersSendNothing(s, e);
      assert hs + AcceptedAt(s, e) == hs;
      SentByLater(s.threads[o], s.sh.f.terminal, s'.sh.f.terminal, By(hs, o), request);
    }
  }

  lemma SentByLater(pc: Pc, terminal: bool, terminal': bool, sent: seq<Command>, request: string)
    requires SentBy(pc, terminal, sent, request) && (terminal ==> terminal')
    ensures SentBy(pc, terminal', sent, request)
  {
  }

  lemma UnarySendingStarts(s: State, e: Event, s': State, request: string)
    requires Enabled(s, e) && s' == Step(s, e) && e == Thread(s.sh.opener, StartUnary(request))
    ensures UnarySending(s', AcceptedAt(s, e), request)
  {
  }

  lemma {:induction false} NothingBeforeUnary(ss: seq<State>, es: seq<Event>, i: nat)
    requires IsRun(ss, es) && i < |ss| && ss[i].sh.unary && ss[i].sh.phase == Unopened
    ensures Accepted(ss, es, i) == []
  {
    if i > 0 {
      RunKeeps(ss, es, i - 1);
      assert Follows(ss, es, i - 1);
      IdleUnary(ss[i - 1], es[i - 1], ss[i]);
      NothingBeforeUnary(ss, es, i - 1);
    }
  }

  lemma IdleUnary(s: State, e: Event, s': State)
    requires Inv(s) && Enabled(s, e) && s' == Step(s, e) && s'.sh.unary && s'.sh.phase == Unopened
    ensures s.sh.unary && s.sh.phase == Unopened && AcceptedAt(s, e) == []
  {
    if e.Thread? {
      assert Loc(s.sh, e.t, s.threads[e.t]);
      OwnStep(s.sh, e.t, s.threads[e.t], e.c);
    }
  }

  lemma {:induction false} UnarySendingKeeps(ss: seq<State>, es: seq<Event>, i: nat, j: nat, request: string)
    requires IsRun(ss, es) && i < j < |ss| && es[i] == Thread(ss[i].sh.opener, StartUnary(request))
    ensures UnarySending(ss[j], Accepted(ss, es, j), request)
  {
    assert Follows(ss, es, j - 1);
    if j == i + 1 {
      StartsUnopened(ss[i], es[i], request);
      NothingBeforeUnary(ss, es, i);
      assert [] + AcceptedAt(ss[i], es[i]) == AcceptedAt(ss[i], es[i]);
      UnarySendingStarts(ss[i], es[i], ss[j], request);
    } else {
      UnarySendingKeeps(ss, es, i, j - 1, request);
      RunKeeps(ss, es, j - 1);
      UnarySendingStep(ss[j - 1], es[j - 1], ss[j], Accepted(ss, es, j - 1), request);
    }
  }

  lemma StartsUnopened(s: State, e: Event, request: string)
    requires Enabled(s, e) && e == Thread(s.sh.opener, StartUnary(request))
    ensures s.sh.unary && s.sh.phase == Unopened
  {
  }

  lemma SentByPrefix(pc: Pc, terminal: bool, sent: seq<Command>, request: string)
    requires SentBy(pc, terminal, sent, request)
    ensures sent <= [SendMessage(request), HalfClose]
  {
  }

  /** CallUnary has its request accepted at most once and then at most one half-close, in this
      order, and no other thread has anything accepted. */
  lemma UnarySendsOnce(ss: seq<State>, es: seq<Event>, i: nat, j: nat, request: string)
    requires IsRun(ss, es) && i < j < |ss| && es[i] == Thread(ss[i].sh.opener, StartUnary(request))
    ensures By(Accepted(ss, es, j), ss[j].sh.opener) <= [SendMessage(request), HalfClose]
    ensures forall m | 0 <= m < |Accepted(ss, es, j)| :: Accepted(ss, es, j)[m].t == ss[j].sh.opener
  {
    UnarySendingKeeps(ss, es, i, j, request);
    var s := ss[j];
    SentByPrefix(s.threads[s.sh.opener], s.sh.f.terminal, By(Accepted(ss, es, j), s.sh.opener), request);
  }

  /** A thread inside ClientContext::TryCancel. */
  predicate InTryCancel(pc: Pc) {
    pc.TryCancelStart? || ((pc.CancelMark? || pc.CancelSend?) && pc.k == Trying)
  }

  lemma CancelStepCompletes(sh: Shared, t: Tid, pc: Pc, c: Choice)
    requires InTryCancel(pc) && Can(sh, t, pc, c)
    ensures var (sh', n) := DoCancel(sh, t, pc); InTryCancel(Land(n)) || sh'.cancelDone
  {
  }

  /** A TryCancel that leaves off has completed; completion is never forgotten. */
  lemma TryCancelCompletes(s: State, e: Event, t: Tid)
    requires Inv(s) && Enabled(s, e) && t in s.threads
    ensures InTryCancel(s.threads[t]) && !InTryCancel(Step(s, e).threads[t]) ==> Step(s, e).sh.cancelDone
    ensures s.sh.cancelDone ==> Step(s, e).sh.cancelDone
  {
    if e.Thread? {
      OwnStep(s.sh, e.t, s.threads[e.t], e.c);
      if e.t == t && InTryCancel(s.threads[t]) {
        CancelStepCompletes(s.sh, t, s.threads[t], e.c);
      }
    }
  }

  /** Cancellation is never lost: once a TryCancel and Open have both completed, the call is
      terminal or its stream exists and received Cancel. */
  lemma CancellationNotLost(ss: seq<State>, es: seq<Event>, i: nat)
    requires IsRun(ss, es) && i < |ss|
    requires ss[i].sh.cancelDone && ss[i].sh.phase == Opened
    ensures ss[i].sh.f.terminal || (ss[i].sh.f.streamSet && ss[i].sh.net.cancelled)
  {
    RunKeeps(ss, es, i);
  }

  lemma UnaryDoneStep(s: State, e: Event, u: Tid)
    requires Inv(s) && Enabled(s, e) && u in s.threads && s.threads[u].UnaryDone?
    ensures u in Step(s, e).threads && Step(s, e).threads[u] == s.threads[u]
    ensures Step(s, e).sh.opener == s.sh.opener && Step(s, e).sh.unary == s.sh.unary
  {
    if e.Thread? {
      OwnStep(s.sh, e.t, s.threads[e.t], e.c);
    }
  }

  lemma {:induction false} UnaryDoneStays(ss: seq<State>, es: seq<Event>, i: nat, j: nat)
    requires IsRun(ss, es) && i <= j < |ss|
    requires ss[i].sh.opener in ss[i].threads && ss[i].threads[ss[i].sh.opener].UnaryDone?
    ensures ss[j].sh.opener == ss[i].sh.opener && ss[j].sh.unary == ss[i].sh.unary
    ensures ss[i].sh.opener in ss[j].threads
    ensures ss[j].threads[ss[i].sh.opener] == ss[i].threads[ss[i].sh.opener]
  {
    if i < j {
      UnaryDoneStays(ss, es, i, j - 1);
      RunKeeps(ss, es, j - 1);
      assert Follows(ss, es, j - 1);
      UnaryDoneStep(ss[j - 1], es[j - 1], ss[i].sh.opener);
    }
  }

  /** A CallUnary that returns OK saw exactly one message in the whole run and an OK terminal
      status, and that message is what it wrote; in every other run the response is untouched. */
  lemma UnaryOutcome(ss: seq<State>, es: seq<Event>, i: nat)
    requires IsRun(ss, es) && i < |ss| && ss[i].sh.unary
    requires ss[i].sh.opener in ss[i].threads && ss[i].threads[ss[i].sh.opener].UnaryDone?
    ensures var done := ss[i].threads[ss[i].sh.opener];
            && (done.response.Some? <==> done.result.IsOk())
            && (done.result.IsOk() ==>
                  && Payloads(es) == [done.response.value]
                  && ss[i].sh.f.terminal && ss[i].sh.f.status.IsOk())
  {
    var last := |es|;
    UnaryDoneStays(ss, es, i, last);
    RunKeeps(ss, es, i);
    RunKeeps(ss, es, last);
    assert Loc(ss[i].sh, ss[i].sh.opener, ss[i].threads[ss[i].sh.opener]);
    assert Loc(ss[last].sh, ss[last].sh.opener, ss[last].threads[ss[last].sh.opener]);
    DeliveredIsPayloads(ss, es, last);
    assert es[..last] == es;
  }

  /** The result of CallUnary is settled by the terminal status of the call and the messages its
      Reads took: a second message makes it INTERNAL (13) whatever the status; a status other
      than OK is passed on unchanged; OK without a message is INTERNAL (13). */
  lemma UnaryVerdict(ss: seq<State>, es: seq<Event>, i: nat)
    requires IsRun(ss, es) && i < |ss| && ss[i].sh.unary
    requires ss[i].sh.opener in ss[i].threads && ss[i].threads[ss[i].sh.opener].UnaryDone?
    ensures ss[i].sh.f.terminal
    ensures var done, status := ss[i].threads[ss[i].sh.opener], ss[i].sh.f.status;
            var taken := Items(Taken(ss, es, i));
            && done.result == (if |taken| > 1 then Status(13, MultipleResponses)
                               else if status.code != 0 then status
                               else if taken == [] then Status(13, ResponseMissing)
                               else Status(0, Empty))
            && done.response == (if |taken| == 1 && status.code == 0 then Some(taken[0]) else None)
  {
    RunKeeps(ss, es, i);
    assert Loc(ss[i].sh, ss[i].sh.opener, ss[i].threads[ss[i].sh.opener]);
    TakenIsReturned(ss, es, i, ss[i].sh.opener);
  }
}
