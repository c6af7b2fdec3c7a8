/** What every step of the client call keeps: a shared part `Glob`, and for every thread a
    part `Loc` that its own steps establish and the steps of all others leave intact. */
module ClientProofs {
  import opened Statuses
  import opened ClientCall
  import opened ClientMachine

  // ------------------------------------------------------------ the invariant

  /** "May deliver", "slot full" and "a reader owes a resume" exclude one another, and the
      messages returned so far followed by the buffered one are the delivered ones. */
  ghost predicate Mailbox(sh: Shared) {
    && !(sh.net.mayDeliver && sh.f.hasMessage)
    && !(sh.net.mayDeliver && sh.resumeOwner.Some?)
    && !(sh.f.hasMessage && sh.resumeOwner.Some?)
    && sh.delivered == sh.returned + Buffered(sh.f)
    && (sh.net.open && !sh.f.hasMessage && sh.resumeOwner.None? && !sh.f.terminal ==>
          sh.net.mayDeliver || sh.net.refused)
    && (!sh.net.open ==> !sh.net.mayDeliver && !sh.f.hasMessage && sh.resumeOwner.None?)
  }

  /** How the life of the stream, of the call and of the context hang together. */
  ghost predicate Lifetimes(sh: Shared) {
    && (sh.net.ended ==> sh.net.open && sh.f.terminal)
    && (sh.f.terminal && sh.f.status.IsOk() ==> sh.net.ended)
    && (sh.f.streamSet ==> sh.net.open && !sh.net.released && sh.phase == Opened)
    && (sh.phase == Opened && !sh.f.terminal ==> sh.f.streamSet)
    && (sh.net.released ==> sh.f.terminal && sh.phase == Opened)
    && (sh.ctx.terminal ==> sh.f.terminal)
    && (sh.ctx.target ==> sh.registerRan)
    && (sh.registerRan && !sh.ctx.target ==> sh.f.terminal)
    && (sh.phase == Unopened ==> !sh.registerRan && !sh.net.open && !sh.f.terminal)
    && (sh.phase == Opened ==> sh.registerRan)
    && (sh.phase == Opening && sh.f.terminal ==> sh.net.open)
  }

  ghost predicate Cancelling(sh: Shared) {
    && (sh.f.streamSet && sh.f.cancelRequested && sh.commandOwner.None? ==> sh.net.cancelled)
    && (sh.cancelDone ==>
          || sh.f.terminal
          || (sh.ctx.cancelled && !sh.registerRan)
          || (sh.f.cancelRequested && (sh.f.streamSet ==> sh.net.cancelled)))
  }

  ghost predicate Glob(sh: Shared) {
    Mailbox(sh) && Lifetimes(sh) && Cancelling(sh)
  }

  /** The control points at which a thread holds `command_mutex_`. */
  predicate Holds(pc: Pc) { pc.OpenPending? || pc.CancelSend? || pc.ReadFail? }

  ghost predicate Owners(sh: Shared, t: Tid, pc: Pc) {
    && (Holds(pc) <==> sh.commandOwner == Some(t))
    && (pc.ReadResume? <==> sh.resumeOwner == Some(t))
  }

  /** A thread inside Open. */
  ghost predicate AtOpen(sh: Shared, t: Tid, k: Kont, registered: bool, open: bool) {
    && sh.phase == Opening && t == sh.opener && !sh.f.streamSet && k != Trying
    && sh.registerRan == registered && sh.net.open == open
  }

  ghost predicate AtUse(sh: Shared, k: Kont) { sh.phase == Opened && k != Trying }

  ghost predicate AtCancel(sh: Shared, k: Kont) {
    if k == Trying then sh.registerRan else sh.phase == Opened
  }

  /** What RunCommand guarantees when it returns. */
  ghost predicate RanOk(sh: Shared, status: Status, ran: nat) {
    && ran <= 1
    && (!status.IsOk() ==> ran == 0 && sh.f.terminal)
    && (status.IsOk() && ran == 0 ==> sh.f.terminal && sh.f.status.IsOk())
  }

  /** What an operation reports when it returns. */
  ghost predicate Reported(sh: Shared, out: Outcome) {
    && (out.Ran? ==> RanOk(sh, out.status, out.ran))
    && (out.Finished? ==>
          && sh.f.terminal && out.status == sh.f.status
          && sh.phase == Opened && !sh.f.streamSet && sh.ctx.terminal)
  }

  ghost predicate At(sh: Shared, t: Tid, pc: Pc) {
    match pc
    case Idle(last) => Reported(sh, last)
    case OpenRegister(k) => AtOpen(sh, t, k, false, false)
    case OpenMetadata(k) => AtOpen(sh, t, k, true, false)
    case OpenStart(k) => AtOpen(sh, t, k, true, false)
    case OpenPending(k, e) => AtOpen(sh, t, k, true, e == Ok)
    case OpenFailed(k, failure) => AtOpen(sh, t, k, true, false) && !failure.IsOk()
    case TryCancelStart => true
    case CancelMark(k) => AtCancel(sh, k)
    case CancelSend(k) => AtCancel(sh, k) && sh.f.cancelRequested
    case CmdSnapshot(k, _) => AtUse(sh, k)
    case CmdRun(k, _, gen) => AtUse(sh, k) && gen <= sh.f.generation
    case CmdWait(k, _, gen) =>
      // Owed a notification unless the generation moved on.
      && AtUse(sh, k) && gen <= sh.f.generation
      && (gen == sh.f.generation && !sh.f.terminal ==> sh.net.owesWritable || sh.net.cancelled)
    case CmdWaitTerminal(k) => AtUse(sh, k)
    case CmdFail(k, e) => AtUse(sh, k) && e != Ok && e != Closed && e != WouldBlock
    case ReadWait(k) => AtUse(sh, k)
    case ReadResume(k, _) => AtUse(sh, k)
    case ReadFail(k, _, e) =>
      AtUse(sh, k) && Fatal(e) && (sh.f.streamSet && sh.f.cancelRequested ==> sh.net.cancelled)
    case FinishWait(k) => AtUse(sh, k)
    case FinishComplete(k, status) => AtUse(sh, k) && sh.f.terminal && status == sh.f.status
    case FinishDestroy(k, status) => AtUse(sh, k) && sh.f.terminal && status == sh.f.status && sh.ctx.terminal
    case FinishRelease(k, status, had) =>
      && AtUse(sh, k) && sh.f.terminal && status == sh.f.status && sh.ctx.terminal
      && !sh.f.streamSet && (had ==> sh.net.open)
    case UnaryDone(_, _) => true
  }

  function AsSeq(o: Option<string>): seq<string> {
    if o.Some? then [o.value] else []
  }

  /** CallUnary is about to finish having read `first` and, if `extra`, one message more. */
  ghost predicate ReadAll(sh: Shared, k: Kont) {
    && k.AfterFinish?
    && (if k.extra then |sh.returned| == 2 else sh.returned == AsSeq(k.first))
    && (!k.extra && k.first.Some? ==> sh.f.terminal && (sh.f.status.IsOk() ==> !sh.f.hasMessage))
  }

  /** CallUnary is sending, or reading its first message: only the peer can have ended the call. */
  ghost predicate Unread(sh: Shared) { sh.returned == [] && (sh.f.terminal ==> sh.net.ended) }

  /** The result of CallUnary, from the status of the call and the messages read. */
  ghost predicate UnaryEnds(sh: Shared, result: Status, response: Option<string>) {
    && sh.f.terminal
    && result == (if |sh.returned| > 1 then Status(INTERNAL, MultipleResponses)
                  else if !sh.f.status.IsOk() then sh.f.status
                  else if sh.returned == [] then Status(INTERNAL, ResponseMissing)
                  else OK_STATUS)
    && AsSeq(response) == (if |sh.returned| == 1 && sh.f.status.IsOk() then sh.returned else [])
    && (response.Some? ==> sh.net.ended && !sh.f.hasMessage)
  }

  /** Where CallUnary stands and which messages it has taken by then. */
  ghost predicate AtUnary(sh: Shared, pc: Pc) {
    match pc
    case Idle(last) => last == Nothing && sh.returned == []
    case OpenRegister(k) => k.AfterOpen? && sh.returned == []
    case OpenMetadata(k) => k.AfterOpen? && sh.returned == []
    case OpenStart(k) => k.AfterOpen? && sh.returned == []
    case OpenPending(k, _) => k.AfterOpen? && sh.returned == []
    case OpenFailed(k, _) => k.AfterOpen? && sh.returned == []
    case TryCancelStart => sh.returned == []
    case CancelMark(k) => if k.AfterCancel? then |sh.returned| == 2 else k == Trying && sh.returned == []
    case CancelSend(k) => if k.AfterCancel? then |sh.returned| == 2 else k == Trying && sh.returned == []
    case CmdSnapshot(k, _) => if k.AfterSend? then sh.returned == [] else k.AfterClose? && Unread(sh)
    case CmdRun(k, _, _) => (k.AfterSend? || k.AfterClose?) && Unread(sh)
    case CmdWait(k, _, _) => (k.AfterSend? || k.AfterClose?) && Unread(sh)
    case CmdWaitTerminal(k) => (k.AfterSend? || k.AfterClose?) && Unread(sh)
    case CmdFail(k, _) => (k.AfterSend? || k.AfterClose?) && Unread(sh)
    case ReadWait(k) =>
      if k.AfterFirst? then Unread(sh)
      else
        && k.AfterSecond? && sh.returned == AsSeq(k.first)
        && (k.first.None? ==> sh.f.terminal && sh.net.ended && !sh.f.hasMessage)
    case ReadResume(k, p) => if k.AfterFirst? then sh.returned == [p] else k.AfterSecond? && |sh.returned| == 2
    case ReadFail(k, p, _) => if k.AfterFirst? then sh.returned == [p] else k.AfterSecond? && |sh.returned| == 2
    case FinishWait(k) => ReadAll(sh, k)
    case FinishComplete(k, _) => ReadAll(sh, k)
    case FinishDestroy(k, _) => ReadAll(sh, k)
    case FinishRelease(k, _, _) => ReadAll(sh, k)
    case UnaryDone(result, response) => UnaryEnds(sh, result, response)
  }

  /** In a unary call every other thread can only cancel. */
  predicate OnlyCancels(pc: Pc) {
    match pc
    case Idle(last) => last == Nothing
    case TryCancelStart => true
    case CancelMark(k) => k == Trying
    case CancelSend(k) => k == Trying
    case _ => false
  }

  predicate Streaming(pc: Pc) {
    match pc
    case Idle(_) => true
    case UnaryDone(_, _) => false
    case TryCancelStart => true
    case CancelMark(k) => k == App || k == Trying
    case CancelSend(k) => k == App || k == Trying
    case _ => pc.k == App
  }

  ghost predicate Mode(sh: Shared, t: Tid, pc: Pc) {
    if !sh.unary then Streaming(pc)
    else if t == sh.opener then AtUnary(sh, pc)
    else OnlyCancels(pc)
  }

  ghost predicate Loc(sh: Shared, t: Tid, pc: Pc) {
    Owners(sh, t, pc) && At(sh, t, pc) && Mode(sh, t, pc)
  }

  ghost predicate Inv(s: State) {
    Glob(s.sh) && forall t | t in s.threads :: Loc(s.sh, t, s.threads[t])
  }

  // ------------------------------------------------------- returning to the caller

  /** What CallUnary relies on when the operation it called returns. */
  ghost predicate UnaryReturn(sh: Shared, k: Kont, out: Outcome) {
    match k
    case App => false
    case Trying => sh.returned == []
    case AfterOpen(_) => sh.returned == []
    case AfterSend => out.Ran? && sh.returned == [] && (out.status.IsOk() ==> Unread(sh))
    case AfterClose => out.Ran? && sh.returned == [] && (out.status.IsOk() ==> Unread(sh))
    case AfterFirst =>
      && out.Got? && sh.returned == AsSeq(out.payload)
      && (out.payload.None? ==> sh.f.terminal && sh.net.ended && !sh.f.hasMessage)
    case AfterSecond(first) =>
      && out.Got?
      && (if out.payload.Some? then |sh.returned| == 2
          else sh.f.terminal && !sh.f.hasMessage && sh.returned == AsSeq(first))
    case AfterCancel(_) => |sh.returned| == 2
    case AfterFinish(_, _) => out.Finished? && sh.f.terminal && out.status == sh.f.status && ReadAll(sh, k)
  }

  ghost predicate Returns(sh: Shared, t: Tid, k: Kont, out: Outcome) {
    && (k != Trying ==> sh.phase == Opened)
    && Reported(sh, out)
    && (if !sh.unary then k == App || k == Trying
        else if t == sh.opener then UnaryReturn(sh, k, out)
        else k == Trying)
  }

  ghost predicate LocNext(sh: Shared, t: Tid, n: Next) {
    match n
    case Jump(pc) => At(sh, t, pc) && Mode(sh, t, pc)
    case Ret(k, out) => Returns(sh, t, k, out)
  }

  ghost predicate OwnersNext(sh: Shared, t: Tid, n: Next) {
    match n
    case Jump(pc) => Owners(sh, t, pc)
    case Ret(_, _) => sh.commandOwner != Some(t) && sh.resumeOwner != Some(t)
  }

  lemma LandKeeps(sh: Shared, t: Tid, n: Next)
    requires Glob(sh) && OwnersNext(sh, t, n) && LocNext(sh, t, n)
    ensures Loc(sh, t, Land(n))
  {
  }

  /** How a step of thread `t` may change what the other threads see. */
  ghost predicate Rely(sh: Shared, sh': Shared, t: Tid) {
    && sh'.opener == sh.opener && sh'.unary == sh.unary
    && sh'.delivered == sh.delivered && (sh.cancelDone ==> sh'.cancelDone)
    && (sh.commandOwner == sh'.commandOwner || (sh.commandOwner.None? && sh'.commandOwner == Some(t))
        || (sh.commandOwner == Some(t) && sh'.commandOwner.None?))
    && (sh.resumeOwner == sh'.resumeOwner || (sh.resumeOwner.None? && sh'.resumeOwner == Some(t))
        || (sh.resumeOwner == Some(t) && sh'.resumeOwner.None?))
    && (sh.commandOwner.Some? && sh.commandOwner != Some(t) ==>
          sh'.f.cancelRequested == sh.f.cancelRequested && sh'.f.streamSet == sh.f.streamSet)
    && (sh.phase == Opened ==>
          sh'.phase == Opened && sh'.net.open == sh.net.open && (!sh.f.streamSet ==> !sh'.f.streamSet))
    && (sh.phase == Opening && t != sh.opener ==>
          && sh'.phase == Opening && sh'.registerRan == sh.registerRan
          && sh'.net.open == sh.net.open && sh'.f.streamSet == sh.f.streamSet)
    && (sh.registerRan ==> sh'.registerRan) && (sh.ctx.terminal ==> sh'.ctx.terminal)
    && (sh.net.open ==> sh'.net.open) && (sh.net.ended ==> sh'.net.ended) && (sh.net.cancelled ==> sh'.net.cancelled)
    && (sh.f.cancelRequested ==> sh'.f.cancelRequested)
    && (sh.f.terminal ==> sh'.f.terminal && sh'.f.status == sh.f.status)
    && sh.f.generation <= sh'.f.generation
    && (sh.net.owesWritable && sh.f.generation == sh'.f.generation ==> sh'.net.owesWritable || sh'.net.cancelled)
    && (sh.unary && t != sh.opener ==>
          && sh'.returned == sh.returned
          && sh'.f.hasMessage == sh.f.hasMessage && sh'.f.terminal == sh.f.terminal)
  }

  // ---------------------------------------------------------- a thread's own steps

  lemma StartShared(sh: Shared, t: Tid, pc: Pc, c: Choice)
    requires pc.Idle?
    requires Glob(sh) && Owners(sh, t, pc) && At(sh, t, pc) && Can(sh, t, pc, c)
    ensures Glob(DoStart(sh, c).0) && OwnersNext(DoStart(sh, c).0, t, DoStart(sh, c).1)
  {
  }

  lemma StartRelied(sh: Shared, t: Tid, pc: Pc, c: Choice)
    requires pc.Idle?
    requires Glob(sh) && Loc(sh, t, pc) && Can(sh, t, pc, c)
    ensures Rely(sh, DoStart(sh, c).0, t)
  {
  }

  lemma StartLocal(sh: Shared, t: Tid, pc: Pc, c: Choice)
    requires pc.Idle?
    requires Glob(sh) && At(sh, t, pc) && Mode(sh, t, pc) && Can(sh, t, pc, c)
    ensures LocNext(DoStart(sh, c).0, t, DoStart(sh, c).1)
  {
  }

  lemma OpenShared(sh: Shared, t: Tid, pc: Pc, c: Choice)
    requires InOpen(pc)
    requires Glob(sh) && Owners(sh, t, pc) && At(sh, t, pc) && Can(sh, t, pc, c)
    ensures Glob(DoOpen(sh, t, pc, c).0) && OwnersNext(DoOpen(sh, t, pc, c).0, t, DoOpen(sh, t, pc, c).1)
  {
  }

  lemma OpenRelied(sh: Shared, t: Tid, pc: Pc, c: Choice)
    requires InOpen(pc)
    requires Glob(sh) && Loc(sh, t, pc) && Can(sh, t, pc, c)
    ensures Rely(sh, DoOpen(sh, t, pc, c).0, t)
  {
  }

  lemma OpenLocal(sh: Shared, t: Tid, pc: Pc, c: Choice)
    requires InOpen(pc)
    requires Glob(sh) && At(sh, t, pc) && Mode(sh, t, pc) && Can(sh, t, pc, c)
    ensures LocNext(DoOpen(sh, t, pc, c).0, t, DoOpen(sh, t, pc, c).1)
  {
  }

  lemma CancelShared(sh: Shared, t: Tid, pc: Pc, c: Choice)
    requires InCancel(pc)
    requires Glob(sh) && Owners(sh, t, pc) && At(sh, t, pc) && Can(sh, t, pc, c)
    ensures Glob(DoCancel(sh, t, pc).0) && OwnersNext(DoCancel(sh, t, pc).0, t, DoCancel(sh, t, pc).1)
  {
  }

  lemma CancelRelied(sh: Shared, t: Tid, pc: Pc, c: Choice)
    requires InCancel(pc)
    requires Glob(sh) && Loc(sh, t, pc) && Can(sh, t, pc, c)
    ensures Rely(sh, DoCancel(sh, t, pc).0, t)
  {
  }

  lemma CancelLocal(sh: Shared, t: Tid, pc: Pc, c: Choice)
    requires InCancel(pc)
    requires Glob(sh) && At(sh, t, pc) && Mode(sh, t, pc) && Can(sh, t, pc, c)
    ensures LocNext(DoCancel(sh, t, pc).0, t, DoCancel(sh, t, pc).1)
  {
  }

  lemma CommandShared(sh: Shared, t: Tid, pc: Pc, c: Choice)
    requires InCommand(pc)
    requires Glob(sh) && Owners(sh, t, pc) && At(sh, t, pc) && Can(sh, t, pc, c)
    ensures Glob(DoCommand(sh, t, pc, c).0) && OwnersNext(DoCommand(sh, t, pc, c).0, t, DoCommand(sh, t, pc, c).1)
  {
  }

  lemma CommandRelied(sh: Shared, t: Tid, pc: Pc, c: Choice)
    requires InCommand(pc)
    requires Glob(sh) && Loc(sh, t, pc) && Can(sh, t, pc, c)
    ensures Rely(sh, DoCommand(sh, t, pc, c).0, t)
  {
  }

  lemma CommandLocal(sh: Shared, t: Tid, pc: Pc, c: Choice)
    requires InCommand(pc)
    requires Glob(sh) && At(sh, t, pc) && Mode(sh, t, pc) && Can(sh, t, pc, c)
    ensures LocNext(DoCommand(sh, t, pc, c).0, t, DoCommand(sh, t, pc, c).1)
  {
  }

  lemma TakeShared(sh: Shared, t: Tid, pc: Pc, c: Choice)
    requires pc.ReadWait?
    requires Glob(sh) && Owners(sh, t, pc) && At(sh, t, pc) && Can(sh, t, pc, c)
    ensures Glob(DoRead(sh, t, pc, c).0) && OwnersNext(DoRead(sh, t, pc, c).0, t, DoRead(sh, t, pc, c).1)
  {
  }

  lemma TakeRelied(sh: Shared, t: Tid, pc: Pc, c: Choice)
    requires pc.ReadWait?
    requires Glob(sh) && Loc(sh, t, pc) && Can(sh, t, pc, c)
    ensures Rely(sh, DoRead(sh, t, pc, c).0, t)
  {
  }

  lemma TakeLocal(sh: Shared, t: Tid, pc: Pc, c: Choice)
    requires pc.ReadWait?
    requires Glob(sh) && At(sh, t, pc) && Mode(sh, t, pc) && Can(sh, t, pc, c)
    ensures LocNext(DoRead(sh, t, pc, c).0, t, DoRead(sh, t, pc, c).1)
  {
  }

  lemma ResumeMailbox(sh: Shared, t: Tid, pc: Pc, c: Choice)
    requires pc.ReadResume?
    requires Glob(sh) && Owners(sh, t, pc) && At(sh, t, pc) && Can(sh, t, pc, c)
    ensures Mailbox(DoRead(sh, t, pc, c).0)
  {
  }

  lemma ResumeLifetimes(sh: Shared, t: Tid, pc: Pc, c: Choice)
    requires pc.ReadResume?
    requires Glob(sh) && Owners(sh, t, pc) && At(sh, t, pc) && Can(sh, t, pc, c)
    ensures Lifetimes(DoRead(sh, t, pc, c).0) && Cancelling(DoRead(sh, t, pc, c).0)
    ensures OwnersNext(DoRead(sh, t, pc, c).0, t, DoRead(sh, t, pc, c).1)
  {
  }

  lemma ResumeRelied(sh: Shared, t: Tid, pc: Pc, c: Choice)
    requires pc.ReadResume?
    requires Glob(sh) && Loc(sh, t, pc) && Can(sh, t, pc, c)
    ensures Rely(sh, DoRead(sh, t, pc, c).0, t)
  {
  }

  lemma ResumeLocal(sh: Shared, t: Tid, pc: Pc, c: Choice)
    requires pc.ReadResume?
    requires Glob(sh) && At(sh, t, pc) && Mode(sh, t, pc) && Can(sh, t, pc, c)
    ensures LocNext(DoRead(sh, t, pc, c).0, t, DoRead(sh, t, pc, c).1)
  {
  }

  lemma ReadFailMailbox(sh: Shared, t: Tid, pc: Pc, c: Choice)
    requires pc.ReadFail?
    requires Glob(sh) && Owners(sh, t, pc) && At(sh, t, pc) && Can(sh, t, pc, c)
    ensures Mailbox(DoRead(sh, t, pc, c).0)
  {
  }

  lemma ReadFailLifetimes(sh: Shared, t: Tid, pc: Pc, c: Choice)
    requires pc.ReadFail?
    requires Glob(sh) && Owners(sh, t, pc) && At(sh, t, pc) && Can(sh, t, pc, c)
    ensures Lifetimes(DoRead(sh, t, pc, c).0) && Cancelling(DoRead(sh, t, pc, c).0)
    ensures OwnersNext(DoRead(sh, t, pc, c).0, t, DoRead(sh, t, pc, c).1)
  {
  }

  lemma ReadFailRelied(sh: Shared, t: Tid, pc: Pc, c: Choice)
    requires pc.ReadFail?
    requires Glob(sh) && Loc(sh, t, pc) && Can(sh, t, pc, c)
    ensures Rely(sh, DoRead(sh, t, pc, c).0, t)
  {
  }

  lemma ReadFailLocal(sh: Shared, t: Tid, pc: Pc, c: Choice)
    requires pc.ReadFail?
    requires Glob(sh) && At(sh, t, pc) && Mode(sh, t, pc) && Can(sh, t, pc, c)
    ensures LocNext(DoRead(sh, t, pc, c).0, t, DoRead(sh, t, pc, c).1)
  {
  }

  lemma FinishShared(sh: Shared, t: Tid, pc: Pc, c: Choice)
    requires InFinish(pc)
    requires Glob(sh) && Owners(sh, t, pc) && At(sh, t, pc) && Can(sh, t, pc, c)
    ensures Glob(DoFinish(sh, pc).0) && OwnersNext(DoFinish(sh, pc).0, t, DoFinish(sh, pc).1)
  {
  }

  lemma FinishRelied(sh: Shared, t: Tid, pc: Pc, c: Choice)
    requires InFinish(pc)
    requires Glob(sh) && Loc(sh, t, pc) && Can(sh, t, pc, c)
    ensures Rely(sh, DoFinish(sh, pc).0, t)
  {
  }

  lemma FinishLocal(sh: Shared, t: Tid, pc: Pc, c: Choice)
    requires InFinish(pc)
    requires Glob(sh) && At(sh, t, pc) && Mode(sh, t, pc) && Can(sh, t, pc, c)
    ensures LocNext(DoFinish(sh, pc).0, t, DoFinish(sh, pc).1)
  {
  }

  // ------------------------------------------- what others leave intact

  lemma NetKeeps(sh: Shared, n: NetEvent)
    requires Glob(sh) && CanNet(sh, n)
    ensures Glob(DoNet(sh, n))
    ensures n.Terminated? && !sh.f.terminal ==>
              && DoNet(sh, n).f.status.message == n.message
              && DoNet(sh, n).f.status.code == if 0 <= n.code <= 16 then n.code else 2
    ensures n.Deliver? ==> Buffered(sh.f) == [] && Buffered(DoNet(sh, n).f) == [n.payload]
  {
  }

  lemma NetStable(sh: Shared, n: NetEvent, t: Tid, pc: Pc)
    requires Glob(sh) && CanNet(sh, n) && Loc(sh, t, pc)
    ensures Loc(DoNet(sh, n), t, pc)
  {
  }

  lemma RelyStable(sh: Shared, sh': Shared, t: Tid, u: Tid, other: Pc)
    requires Glob(sh) && Rely(sh, sh', t) && u != t && Loc(sh, u, other)
    requires sh.unary && u != sh.opener ==> OnlyCancels(other)
    ensures Loc(sh', u, other)
  {
  }

  // ------------------------------------------------------------------- every step

  ghost predicate Good(sh: Shared, t: Tid, sh': Shared, n: Next) {
    Glob(sh') && Rely(sh, sh', t) && OwnersNext(sh', t, n) && LocNext(sh', t, n)
  }

  lemma ReadStep(sh: Shared, t: Tid, pc: Pc, c: Choice)
    requires Glob(sh) && Loc(sh, t, pc) && InRead(pc) && Can(sh, t, pc, c)
    ensures Good(sh, t, DoRead(sh, t, pc, c).0, DoRead(sh, t, pc, c).1)
  {
    if pc.ReadWait? {
      TakeShared(sh, t, pc, c); TakeRelied(sh, t, pc, c); TakeLocal(sh, t, pc, c);
    } else if pc.ReadResume? {
      ResumeMailbox(sh, t, pc, c); ResumeLifetimes(sh, t, pc, c);
      ResumeRelied(sh, t, pc, c); ResumeLocal(sh, t, pc, c);
    } else {
      ReadFailMailbox(sh, t, pc, c); ReadFailLifetimes(sh, t, pc, c);
      ReadFailRelied(sh, t, pc, c); ReadFailLocal(sh, t, pc, c);
    }
  }

  lemma StartStep(sh: Shared, t: Tid, pc: Pc, c: Choice)
    requires Glob(sh) && Loc(sh, t, pc) && pc.Idle? && Can(sh, t, pc, c)
    ensures Good(sh, t, DoStart(sh, c).0, DoStart(sh, c).1)
  {
    StartShared(sh, t, pc, c); StartRelied(sh, t, pc, c); StartLocal(sh, t, pc, c);
  }

  lemma OpenStep(sh: Shared, t: Tid, pc: Pc, c: Choice)
    requires Glob(sh) && Loc(sh, t, pc) && InOpen(pc) && Can(sh, t, pc, c)
    ensures Good(sh, t, DoOpen(sh, t, pc, c).0, DoOpen(sh, t, pc, c).1)
  {
    OpenShared(sh, t, pc, c); OpenRelied(sh, t, pc, c); OpenLocal(sh, t, pc, c);
  }

  lemma CancelStep(sh: Shared, t: Tid, pc: Pc, c: Choice)
    requires Glob(sh) && Loc(sh, t, pc) && InCancel(pc) && Can(sh, t, pc, c)
    ensures Good(sh, t, DoCancel(sh, t, pc).0, DoCancel(sh, t, pc).1)
  {
    CancelShared(sh, t, pc, c); CancelRelied(sh, t, pc, c); CancelLocal(sh, t, pc, c);
  }

  lemma CommandStep(sh: Shared, t: Tid, pc: Pc, c: Choice)
    requires Glob(sh) && Loc(sh, t, pc) && InCommand(pc) && Can(sh, t, pc, c)
    ensures Good(sh, t, DoCommand(sh, t, pc, c).0, DoCommand(sh, t, pc, c).1)
  {
    CommandShared(sh, t, pc, c); CommandRelied(sh, t, pc, c); CommandLocal(sh, t, pc, c);
  }

  lemma FinishStep(sh: Shared, t: Tid, pc: Pc, c: Choice)
    requires Glob(sh) && Loc(sh, t, pc) && InFinish(pc) && Can(sh, t, pc, c)
    ensures Good(sh, t, DoFinish(sh, pc).0, DoFinish(sh, pc).1)
  {
    FinishShared(sh, t, pc, c); FinishRelied(sh, t, pc, c); FinishLocal(sh, t, pc, c);
  }

  lemma OwnStep(sh: Shared, t: Tid, pc: Pc, c: Choice)
    requires Glob(sh) && Loc(sh, t, pc) && Can(sh, t, pc, c)
    ensures Good(sh, t, Do(sh, t, pc, c).0, Do(sh, t, pc, c).1)
  {
    if pc.Idle? {
      StartStep(sh, t, pc, c);
    } else if InOpen(pc) {
      OpenStep(sh, t, pc, c);
    } else if InCancel(pc) {
      CancelStep(sh, t, pc, c);
    } else if InCommand(pc) {
      CommandStep(sh, t, pc, c);
    } else if InRead(pc) {
      ReadStep(sh, t, pc, c);
    } else {
      FinishStep(sh, t, pc, c);
    }
  }

  lemma StepKeeps(s: State, e: Event)
    requires Inv(s) && Enabled(s, e)
    ensures Inv(Step(s, e))
  {
    match e
    case Transport(n) =>
      NetKeeps(s.sh, n);
      forall u | u in s.threads ensures Loc(DoNet(s.sh, n), u, s.threads[u]) {
        NetStable(s.sh, n, u, s.threads[u]);
      }
    case Thread(t, c) =>
      var (sh', n) := Do(s.sh, t, s.threads[t], c);
      OwnStep(s.sh, t, s.threads[t], c);
      LandKeeps(sh', t, n);
      forall u | u in s.threads && u != t ensures Loc(sh', u, s.threads[u]) {
        RelyStable(s.sh, sh', t, u, s.threads[u]);
      }
  }

  lemma {:induction false} RunKeeps(ss: seq<State>, es: seq<Event>, i: nat)
    requires IsRun(ss, es) && i < |ss|
    ensures Inv(ss[i])
  {
    if i > 0 {
      RunKeeps(ss, es, i - 1);
      assert Follows(ss, es, i - 1);
      StepKeeps(ss[i - 1], es[i - 1]);
    }
  }
}
