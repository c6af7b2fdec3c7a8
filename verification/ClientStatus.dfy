/** Where the terminal status of a client call comes from, over every run: the status the peer
    reported, or the error the transport last answered to the thread that ended the call. */
module ClientStatus {
  import opened Statuses
  import opened ClientCall
  import opened ClientMachine
  import opened ClientProofs

  // ------------------------------------------------------------ the transport's answers

  /** What the transport last answered to thread `t`. */
  function LastAnswer(es: seq<Event>, t: Tid): Option<ErrorCode> {
    if es == [] then None
    else
      var e := es[|es| - 1];
      if e.Thread? && e.t == t && e.c.Answer? then Some(e.c.e) else LastAnswer(es[..|es| - 1], t)
  }

  /** What is still to be reported is the last answer. `CmdFail` is reached by an answer that
      neither ends, nor delays, nor completes a command; `ReadFail` by one that is not normal
      for a stream that goes on or winds down. */
  ghost predicate Heard(sh: Shared, pc: Pc, a: Option<ErrorCode>) {
    match pc
    case OpenPending(_, e) => a == Some(e)
    case OpenFailed(_, failure) => a.Some? && a.value != Ok && failure == ErrorStatus(a.value)
    case CmdFail(_, e) => a == Some(e) && e !in {Ok, Closed, WouldBlock}
    case ReadFail(_, _, e) => a == Some(e) && e !in {Ok, Closed, Unavailable, WouldBlock}
    case Idle(Ran(status, 0)) =>
      && sh.f.terminal
      && (status == sh.f.status
          || (a.Some? && a.value !in {Ok, Closed, WouldBlock} && status == CommandFailure(a.value)))
    case _ => true
  }

  ghost predicate AnswerNext(a: Option<ErrorCode>, c: Choice, a': Option<ErrorCode>) {
    a' == if c.Answer? then Some(c.e) else a
  }

  lemma OpenHears(sh: Shared, t: Tid, pc: Pc, c: Choice, a: Option<ErrorCode>, a': Option<ErrorCode>)
    requires InOpen(pc) && Can(sh, t, pc, c) && Heard(sh, pc, a) && AnswerNext(a, c, a')
    ensures var (sh', n) := DoOpen(sh, t, pc, c); Heard(sh', Land(n), a')
  {
  }

  lemma CommandHears(sh: Shared, t: Tid, pc: Pc, c: Choice, a: Option<ErrorCode>, a': Option<ErrorCode>)
    requires InCommand(pc) && Can(sh, t, pc, c) && Heard(sh, pc, a) && AnswerNext(a, c, a')
    ensures var (sh', n) := DoCommand(sh, t, pc, c); Heard(sh', Land(n), a')
  {
  }

  lemma ReadHears(sh: Shared, t: Tid, pc: Pc, c: Choice, a: Option<ErrorCode>, a': Option<ErrorCode>)
    requires InRead(pc) && Can(sh, t, pc, c) && Heard(sh, pc, a) && AnswerNext(a, c, a')
    ensures var (sh', n) := DoRead(sh, t, pc, c); Heard(sh', Land(n), a')
  {
  }

  lemma OthersHear(sh: Shared, t: Tid, pc: Pc, c: Choice, a: Option<ErrorCode>, a': Option<ErrorCode>)
    requires !InOpen(pc) && !InCommand(pc) && !InRead(pc) && Can(sh, t, pc, c)
    ensures var (sh', n) := Do(sh, t, pc, c); Heard(sh', Land(n), a')
  {
  }

  lemma HearsStep(s: State, e: Event, s': State, t: Tid, a: Option<ErrorCode>, a': Option<ErrorCode>)
    requires Inv(s) && Enabled(s, e) && s' == Step(s, e) && t in s.threads && Heard(s.sh, s.threads[t], a)
    requires if e.Thread? && e.t == t then AnswerNext(a, e.c, a') else a' == a
    ensures t in s'.threads && Heard(s'.sh, s'.threads[t], a')
  {
    if e.Thread? && e.t == t {
      OwnHears(s.sh, t, s.threads[t], e.c, a, a');
    } else {
      if e.Thread? {
        OwnStep(s.sh, e.t, s.threads[e.t], e.c);
      }
      StillHeard(s.sh, s'.sh, s.threads[t], a);
    }
  }

  lemma StillHeard(sh: Shared, sh': Shared, pc: Pc, a: Option<ErrorCode>)
    requires Heard(sh, pc, a) && (sh.f.terminal ==> sh'.f.terminal && sh'.f.status == sh.f.status)
    ensures Heard(sh', pc, a)
  {
  }

  lemma OwnHears(sh: Shared, t: Tid, pc: Pc, c: Choice, a: Option<ErrorCode>, a': Option<ErrorCode>)
    requires Can(sh, t, pc, c) && Heard(sh, pc, a) && AnswerNext(a, c, a')
    ensures var (sh', n) := Do(sh, t, pc, c); Heard(sh', Land(n), a')
  {
    if InOpen(pc) {
      OpenHears(sh, t, pc, c, a, a');
    } else if InCommand(pc) {
      CommandHears(sh, t, pc, c, a, a');
    } else if InRead(pc) {
      ReadHears(sh, t, pc, c, a, a');
    } else {
      OthersHear(sh, t, pc, c, a, a');
    }
  }

  lemma {:induction false} Hears(ss: seq<State>, es: seq<Event>, i: nat, t: Tid)
    requires IsRun(ss, es) && i < |ss| && t in ss[0].threads
    ensures t in ss[i].threads && Heard(ss[i].sh, ss[i].threads[t], LastAnswer(es[..i], t))
  {
    if i > 0 {
      Hears(ss, es, i - 1, t);
      RunKeeps(ss, es, i - 1);
      assert Follows(ss, es, i - 1);
      assert es[..i][..i - 1] == es[..i - 1];
      HearsStep(ss[i - 1], es[i - 1], ss[i], t, LastAnswer(es[..i - 1], t), LastAnswer(es[..i], t));
    }
  }

  // ------------------------------------------------------------- the terminal status

  /** The status that code `code` and message `m` from the peer stand for. */
  ghost predicate Reports(status: Status, code: int, m: Text) {
    status.message == m && status.code == if 0 <= code <= 16 then code else 2
  }

  /** The status a thread at `pc` may end the call with after answer `a`. */
  ghost predicate EndsWith(pc: Pc, a: Option<ErrorCode>, status: Status) {
    if pc.OpenRegister? then status == Status(1, CancelledBeforeStart)
    else
      && a.Some? && a.value != Ok
      && (if pc.OpenMetadata? || pc.OpenFailed? then status == ErrorStatus(a.value)
          else if pc.CmdFail? then
            && a.value !in {Closed, WouldBlock}
            && status.code == (if a.value == OutOfRange then 8 else ErrorStatus(a.value).code)
            && status.message == CommandFailed(ErrorText(a.value))
          else pc.ReadFail? && a.value !in {Closed, Unavailable, WouldBlock} && status == ErrorStatus(a.value))
  }

  lemma OpenEnds(sh: Shared, t: Tid, pc: Pc, c: Choice, a: Option<ErrorCode>)
    requires InOpen(pc) && Can(sh, t, pc, c) && Heard(sh, pc, a)
    requires !sh.f.terminal && DoOpen(sh, t, pc, c).0.f.terminal
    ensures EndsWith(pc, if c.Answer? then Some(c.e) else a, DoOpen(sh, t, pc, c).0.f.status)
  {
  }

  lemma CommandEnds(sh: Shared, t: Tid, pc: Pc, c: Choice, a: Option<ErrorCode>)
    requires InCommand(pc) && Can(sh, t, pc, c) && Heard(sh, pc, a)
    requires !sh.f.terminal && DoCommand(sh, t, pc, c).0.f.terminal
    ensures EndsWith(pc, if c.Answer? then Some(c.e) else a, DoCommand(sh, t, pc, c).0.f.status)
  {
  }

  lemma ReadEnds(sh: Shared, t: Tid, pc: Pc, c: Choice, a: Option<ErrorCode>)
    requires InRead(pc) && Can(sh, t, pc, c) && Heard(sh, pc, a)
    requires !sh.f.terminal && DoRead(sh, t, pc, c).0.f.terminal
    ensures EndsWith(pc, if c.Answer? then Some(c.e) else a, DoRead(sh, t, pc, c).0.f.status)
  {
  }

  lemma OthersEndNothing(sh: Shared, t: Tid, pc: Pc, c: Choice)
    requires Can(sh, t, pc, c) && !sh.f.terminal && Do(sh, t, pc, c).0.f.terminal
    ensures InOpen(pc) || InCommand(pc) || InRead(pc)
  {
  }

  lemma ThreadEnds(sh: Shared, t: Tid, pc: Pc, c: Choice, a: Option<ErrorCode>)
    requires Can(sh, t, pc, c) && Heard(sh, pc, a) && !sh.f.terminal && Do(sh, t, pc, c).0.f.terminal
    ensures EndsWith(pc, if c.Answer? then Some(c.e) else a, Do(sh, t, pc, c).0.f.status)
  {
    OthersEndNothing(sh, t, pc, c);
    if InOpen(pc) {
      OpenEnds(sh, t, pc, c, a);
    } else if InCommand(pc) {
      CommandEnds(sh, t, pc, c, a);
    } else {
      ReadEnds(sh, t, pc, c, a);
    }
  }

  lemma {:induction false} StatusStays(ss: seq<State>, es: seq<Event>, i: nat, j: nat)
    requires IsRun(ss, es) && i <= j < |ss| && ss[i].sh.f.terminal
    ensures ss[j].sh.f.terminal && ss[j].sh.f.status == ss[i].sh.f.status
  {
    if i < j {
      StatusStays(ss, es, i, j - 1);
      RunKeeps(ss, es, j - 1);
      assert Follows(ss, es, j - 1);
      StatusStep(ss[j - 1], es[j - 1], ss[j]);
    }
  }

  lemma StatusStep(s: State, e: Event, s': State)
    requires Inv(s) && Enabled(s, e) && s' == Step(s, e) && s.sh.f.terminal
    ensures s'.sh.f.terminal && s'.sh.f.status == s.sh.f.status
  {
    if e.Thread? {
      OwnStep(s.sh, e.t, s.threads[e.t], e.c);
    }
  }

  lemma EndingStep(s: State, e: Event, s': State, a: Option<ErrorCode>)
    requires Enabled(s, e) && s' == Step(s, e) && !s.sh.f.terminal && s'.sh.f.terminal
    requires e.Thread? ==> Heard(s.sh, s.threads[e.t], a)
    ensures match e
            case Transport(n) => n.Terminated? && Reports(s'.sh.f.status, n.code, n.message)
            case Thread(t, c) => EndsWith(s.threads[t], if c.Answer? then Some(c.e) else a, s'.sh.f.status)
  {
    if e.Thread? {
      ThreadEnds(s.sh, e.t, s.threads[e.t], e.c, a);
    }
  }

  lemma {:induction false} ThreadsStay(ss: seq<State>, es: seq<Event>, i: nat, t: Tid)
    requires IsRun(ss, es) && i < |ss|
    ensures t in ss[i].threads <==> t in ss[0].threads
  {
    if i > 0 {
      ThreadsStay(ss, es, i - 1, t);
      assert Follows(ss, es, i - 1);
    }
  }

  /** The first cause wins, for good. Whatever step `i` ends the call, its status is the one that
      step stands for in every later state: the peer's own code (2 if it is none of 0 to 16) and
      message if it was on_terminal, and otherwise never OK but what the transport last
      answered to that thread, or CANCELLED if Open found its context cancelled. */
  lemma TerminalStatus(ss: seq<State>, es: seq<Event>, i: nat, j: nat)
    requires IsRun(ss, es) && i < j < |ss| && !ss[i].sh.f.terminal && ss[i + 1].sh.f.terminal
    ensures ss[j].sh.f.terminal
    ensures match es[i]
            case Transport(n) => n.Terminated? && Reports(ss[j].sh.f.status, n.code, n.message)
            case Thread(t, c) =>
              && !ss[j].sh.f.status.IsOk() && t in ss[i].threads
              && EndsWith(ss[i].threads[t], LastAnswer(es[..i + 1], t), ss[j].sh.f.status)
  {
    StatusStays(ss, es, i + 1, j);
    assert Follows(ss, es, i);
    if es[i].Thread? {
      ThreadsStay(ss, es, i, es[i].t);
      Hears(ss, es, i, es[i].t);
      assert es[..i + 1][..i] == es[..i];
      EndingStep(ss[i], es[i], ss[i + 1], LastAnswer(es[..i], es[i].t));
    } else {
      EndingStep(ss[i], es[i], ss[i + 1], None);
    }
  }

  lemma {:induction false} EndsOnce(ss: seq<State>, es: seq<Event>, j: nat) returns (i: nat)
    requires IsRun(ss, es) && j < |ss| && ss[j].sh.f.terminal
    ensures i < j && !ss[i].sh.f.terminal && ss[i + 1].sh.f.terminal
  {
    i := j - 1;
    if ss[j - 1].sh.f.terminal {
      i := EndsOnce(ss, es, j - 1);
    }
  }

  /** What a thread is told: Finish returns the terminal status, and then the call has let go of
      its stream and the context counts it as over; a command that the transport did
      not accept returns the terminal status too, or the error the transport answered. */
  lemma ToldStatus(ss: seq<State>, es: seq<Event>, j: nat, t: Tid)
    requires IsRun(ss, es) && j < |ss| && t in ss[j].threads && ss[j].threads[t].Idle?
    ensures var told, f := ss[j].threads[t].last, ss[j].sh.f;
            && (told.Finished? ==> f.terminal && told.status == f.status && !f.streamSet && ss[j].sh.ctx.terminal)
            && (told.Ran? && told.ran == 0 ==>
                  && f.terminal
                  && (told.status == f.status
                      || (LastAnswer(es[..j], t).Some? && told.status == CommandFailure(LastAnswer(es[..j], t).value))))
  {
    ThreadsStay(ss, es, j, t);
    Hears(ss, es, j, t);
    RunKeeps(ss, es, j);
    assert Loc(ss[j].sh, t, ss[j].threads[t]);
  }

  // ---------------------------------------------------- a reception that cannot go on

  /** `t` stands where an ill-fated Resume leaves it, or the call is terminal. */
  ghost predicate Doomed(s: State, t: Tid) {
    t in s.threads && (s.threads[t].ReadFail? || s.sh.f.terminal)
  }

  lemma ResumeStep(s: State, e: Event, s': State)
    requires Enabled(s, e) && s' == Step(s, e) && s.sh.f.streamSet
    requires e.Thread? && e.c.Answer? && s.threads[e.t].ReadResume?
    ensures e.c.e !in {Ok, Closed, Unavailable, WouldBlock} ==> Doomed(s', e.t)
    ensures e.c.e in {Ok, Closed, Unavailable, WouldBlock} ==>
              s'.sh.f == s.sh.f && !s'.threads[e.t].ReadFail?
  {
  }

  lemma DoomedStep(s: State, e: Event, s': State, t: Tid)
    requires Inv(s) && Enabled(s, e) && s' == Step(s, e) && Doomed(s, t)
    ensures Doomed(s', t)
  {
    if e.Thread? {
      OwnStep(s.sh, e.t, s.threads[e.t], e.c);
    }
  }

  /** After a message was taken, an answer to Resume other than Ok, Closed, Unavailable and
      WouldBlock ends the call: once that Read is past its last section the call is terminal. */
  lemma {:induction false} ResumeEndsCall(ss: seq<State>, es: seq<Event>, i: nat, j: nat, t: Tid, e: ErrorCode)
    requires IsRun(ss, es) && i < j < |ss| && es[i] == Thread(t, Answer(e))
    requires t in ss[i].threads && ss[i].threads[t].ReadResume? && ss[i].sh.f.streamSet
    requires e !in {Ok, Closed, Unavailable, WouldBlock}
    ensures t in ss[j].threads && (ss[j].threads[t].ReadFail? || ss[j].sh.f.terminal)
  {
    assert Follows(ss, es, j - 1);
    if j == i + 1 {
      ResumeStep(ss[i], es[i], ss[j]);
    } else {
      ResumeEndsCall(ss, es, i, j - 1, t, e);
      RunKeeps(ss, es, j - 1);
      DoomedStep(ss[j - 1], es[j - 1], ss[j], t);
    }
  }

  // ------------------------------------------------------------ an Open that is refused

  /** Open was refused with `e` and is about to say so, or has said so. */
  ghost predicate Refused(s: State, e: ErrorCode) {
    && !s.sh.net.open
    && (if s.sh.phase == Opened then s.sh.f.terminal && s.sh.f.status == ErrorStatus(e)
        else
          && s.sh.phase == Opening && s.sh.opener in s.threads
          && match s.threads[s.sh.opener]
             case OpenPending(_, error) => error == e
             case OpenFailed(_, failure) => failure == ErrorStatus(e)
             case _ => false)
  }

  lemma RefusedFirst(s: State, e: Event, s': State)
    requires Inv(s) && Enabled(s, e) && s' == Step(s, e) && e.Thread? && e.c.Answer? && e.c.e != Ok
    requires s.threads[e.t].OpenMetadata? || s.threads[e.t].OpenStart?
    ensures Refused(s', e.c.e)
  {
    assert Loc(s.sh, e.t, s.threads[e.t]);
  }

  lemma OpenerRefused(s: State, c: Choice, s': State, e: ErrorCode)
    requires Inv(s) && s.sh.opener in s.threads && Enabled(s, Thread(s.sh.opener, c))
    requires s' == Step(s, Thread(s.sh.opener, c)) && s.sh.phase == Opening && e != Ok && Refused(s, e)
    ensures Refused(s', e)
  {
    assert Loc(s.sh, s.sh.opener, s.threads[s.sh.opener]);
  }

  lemma RefusedStep(s: State, e: Event, s': State, error: ErrorCode)
    requires Inv(s) && Enabled(s, e) && s' == Step(s, e) && error != Ok && Refused(s, error)
    ensures Refused(s', error)
  {
    if e.Thread? {
      assert Loc(s.sh, e.t, s.threads[e.t]);
      if s.sh.phase == Opening && e.t == s.sh.opener {
        OpenerRefused(s, e.c, s', error);
      } else {
        OwnStep(s.sh, e.t, s.threads[e.t], e.c);
      }
    }
  }

  lemma {:induction false} RefusedOn(ss: seq<State>, es: seq<Event>, i: nat, j: nat, t: Tid, e: ErrorCode)
    requires IsRun(ss, es) && i < j < |ss| && es[i] == Thread(t, Answer(e)) && e != Ok
    requires t in ss[i].threads && (ss[i].threads[t].OpenMetadata? || ss[i].threads[t].OpenStart?)
    ensures Refused(ss[j], e)
  {
    assert Follows(ss, es, j - 1);
    RunKeeps(ss, es, j - 1);
    if j == i + 1 {
      RefusedFirst(ss[i], es[i], ss[j]);
    } else {
      RefusedOn(ss, es, i, j - 1, t, e);
      RefusedStep(ss[j - 1], es[j - 1], ss[j], e);
    }
  }

  /** If its metadata or its stream is refused, Open never opens anything: once it is over the call
      is terminal with the status of that refusal. */
  lemma OpenRefused(ss: seq<State>, es: seq<Event>, i: nat, j: nat, t: Tid, e: ErrorCode)
    requires IsRun(ss, es) && i < j < |ss| && es[i] == Thread(t, Answer(e)) && e != Ok
    requires t in ss[i].threads && (ss[i].threads[t].OpenMetadata? || ss[i].threads[t].OpenStart?)
    ensures !ss[j].sh.net.open
    ensures ss[j].sh.phase == Opened ==> ss[j].sh.f.terminal && ss[j].sh.f.status == ErrorStatus(e)
  {
    RefusedOn(ss, es, i, j, t, e);
  }
}
