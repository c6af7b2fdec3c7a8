/** The bounded executor example: one worker, one outstanding call, admission that never
    waits (examples/cpp_bounded_executor/main.cc). Calls are named by numbers; a call has one
    owner at a time. */
module BoundedExecutor {
  import opened Statuses

  type CallId = nat

  datatype Executor = Executor(slot: Option<CallId>, busy: bool, closed: bool, started: bool)

  const NEW_EXECUTOR := Executor(None, false, false, false)

  /** `contended`: somebody holds the mutex, so try_to_lock fails. */
  predicate Admits(x: Executor, contended: bool) { !contended && !x.closed && !x.busy }

  function Submit(x: Executor, call: CallId, contended: bool): Executor {
    if Admits(x, contended) then x.(slot := Some(call), busy := true) else x
  }

  function Shut(x: Executor): Executor { x.(closed := true) }

  /** The worker's section at the top of its loop, once its wait is over. */
  predicate Awake(x: Executor) { x.closed || x.busy }

  function Taken(x: Executor): Executor { if x.busy then x.(slot := None) else x }

  function Reopened(x: Executor): Executor { x.(busy := false) }

  /** The executor's sections, over its fields. */
  class Object {
    var slot: Option<CallId>
    var busy: bool
    var closed: bool
    var started: bool

    function View(): Executor
      reads this
    {
      Executor(slot, busy, closed, started)
    }

    constructor ()
      ensures View() == NEW_EXECUTOR
    {
      slot, busy, closed, started := None, false, false, false;
    }

    method TrySubmit(call: CallId, contended: bool) returns (accepted: bool)
      modifies this
      ensures accepted <==> Admits(old(View()), contended)
      ensures View() == Submit(old(View()), call, contended)
    {
      if contended || closed || busy {
        return false;
      }
      slot := Some(call);
      busy := true;
      return true;
    }

    method Close()
      modifies this
      ensures View() == Shut(old(View()))
    {
      closed := true;
    }

    /** None: the worker is to exit. */
    method TakeCall() returns (call: Option<CallId>)
      requires Awake(View()) && (busy ==> slot.Some?)
      modifies this
      ensures View() == Taken(old(View()))
      ensures call == if old(busy) then old(slot) else None
    {
      if !busy {
        return None;
      }
      call := slot;
      slot := None;
    }

    method Reopen()
      modifies this
      ensures View() == Reopened(old(View()))
    {
      busy := false;
    }
  }

  // ---------------------------------------------------------------------- all threads

  datatype Worker = Unstarted | Looping | Holding(call: CallId) | Worked(call: CallId) | Released | Exited

  /** How the work on a call ended. */
  datatype Outcome = Responded | Skipped | Aborted

  /** `held` are the calls their submitters own; the sequences are histories. */
  datatype State = State(
    x: Executor, worker: Worker, held: set<CallId>,
    accepted: seq<CallId>, worked: seq<(CallId, Outcome)>, released: seq<CallId>)

  datatype Event =
    | Arrive(call: CallId)
    | TrySubmit(call: CallId, contended: bool)
    | Discard(call: CallId)                      // a submitter is done with a refused call
    | Close
    | Begin
    | Loop
    | Work(outcome: Outcome)
    | Release
    | Reopen

  predicate Known(s: State, call: CallId) { call in s.held || call in s.accepted }

  predicate Enabled(s: State, e: Event) {
    match e
    case Arrive(c) => !Known(s, c)
    case TrySubmit(c, _) => c in s.held && s.x.started
    case Discard(c) => c in s.held
    case Close => true
    case Begin => s.worker == Unstarted
    case Loop => s.worker == Looping && Awake(s.x)
    case Work(_) => s.worker.Holding?
    case Release => s.worker.Worked?
    case Reopen => s.worker == Released
  }

  function Step(s: State, e: Event): State
    requires Enabled(s, e)
  {
    match e
    case Arrive(c) => s.(held := s.held + {c})
    case TrySubmit(c, contended) =>
      var s1 := s.(x := Submit(s.x, c, contended));
      if Admits(s.x, contended) then s1.(held := s.held - {c}, accepted := s.accepted + [c]) else s1
    case Discard(c) => s.(held := s.held - {c})
    case Close => s.(x := Shut(s.x))
    case Begin => s.(x := s.x.(started := true), worker := Looping)
    case Loop =>
      s.(x := Taken(s.x),
         worker := if !s.x.busy then Exited
                   else match s.x.slot
                        case Some(c) => Holding(c)
                        case None => Exited)
    case Work(outcome) => s.(worker := Worked(s.worker.call), worked := s.worked + [(s.worker.call, outcome)])
    case Release => s.(worker := Released, released := s.released + [s.worker.call])
    case Reopen => s.(x := Reopened(s.x), worker := Looping)
  }

  predicate Init(s: State) {
    s == State(NEW_EXECUTOR, Unstarted, {}, [], [], [])
  }

  ghost predicate IsRun(ss: seq<State>, es: seq<Event>) {
    && |ss| == |es| + 1
    && Init(ss[0])
    && forall i | 0 <= i < |es| :: Enabled(ss[i], es[i]) && ss[i + 1] == Step(ss[i], es[i])
  }

  // -------------------------------------------------------------------------- ownership

  function InSlot(s: State): seq<CallId> { if s.x.slot.Some? then [s.x.slot.value] else [] }

  function InHand(s: State): seq<CallId> {
    if s.worker.Holding? || s.worker.Worked? then [s.worker.call] else []
  }

  function Calls(worked: seq<(CallId, Outcome)>): seq<CallId> {
    if worked == [] then [] else Calls(worked[..|worked| - 1]) + [worked[|worked| - 1].0]
  }

  predicate Distinct(s: seq<CallId>) {
    forall i, j | 0 <= i < j < |s| :: s[i] != s[j]
  }

  /** Every accepted call is released, in the slot or in the worker's hand; the slot and the
      hand hold at most one call between them, and none unless the executor is busy. */
  ghost predicate Owned(s: State) {
    && s.accepted == s.released + InSlot(s) + InHand(s)
    && (s.x.slot.Some? ==> s.x.busy && s.worker == Looping)
    && (s.x.busy <==> s.x.slot.Some? || s.worker.Holding? || s.worker.Worked? || s.worker == Released)
    && (s.x.started <==> s.worker != Unstarted)
    && (s.worker == Exited ==> s.x.closed)
  }

  /** Each call is worked on once, before it is released. */
  ghost predicate Once(s: State) {
    && Calls(s.worked) == s.released + (if s.worker.Worked? then [s.worker.call] else [])
    && Distinct(s.accepted)
    && forall c | c in s.accepted :: c !in s.held
  }

  lemma CallsAfter(worked: seq<(CallId, Outcome)>, w: (CallId, Outcome))
    ensures Calls(worked + [w]) == Calls(worked) + [w.0]
  {
    assert (worked + [w])[..|worked + [w]| - 1] == worked;
  }

  lemma StepOwned(s: State, e: Event)
    requires Owned(s) && Enabled(s, e)
    ensures Owned(Step(s, e))
  {
    match e
    case TrySubmit(c, contended) => assert s.released + [] + [] + [c] == s.released + [c] + [];
    case Release => assert s.released + [] + [s.worker.call] == s.released + [s.worker.call] + [] + [];
    case _ =>
  }

  lemma StepOnce(s: State, e: Event)
    requires Owned(s) && Once(s) && Enabled(s, e)
    ensures Once(Step(s, e))
  {
    match e
    case Work(outcome) => CallsAfter(s.worked, (s.worker.call, outcome));
    case _ =>
  }

  lemma {:induction false} RunKeeps(ss: seq<State>, es: seq<Event>, k: nat)
    requires IsRun(ss, es) && k < |ss|
    ensures Owned(ss[k]) && Once(ss[k])
  {
    if k > 0 {
      RunKeeps(ss, es, k - 1);
      StepOwned(ss[k - 1], es[k - 1]);
      StepOnce(ss[k - 1], es[k - 1]);
    }
  }

  // ---------------------------------------------------------------------------- results

  /** One owner: in every state, the accepted calls are, in order, the released ones and then
      at most one that is in the slot or in the worker's hand and not with its submitter. */
  lemma OneOutstanding(ss: seq<State>, es: seq<Event>, k: nat)
    requires IsRun(ss, es) && k < |ss|
    ensures ss[k].released <= ss[k].accepted && |ss[k].accepted| <= |ss[k].released| + 1
    ensures |ss[k].accepted| == |ss[k].released| + 1 ==>
              ((ss[k].x.slot == Some(ss[k].accepted[|ss[k].released|])) != (InHand(ss[k]) == [ss[k].accepted[|ss[k].released|]]))
    ensures !ss[k].x.busy ==> ss[k].accepted == ss[k].released && ss[k].x.slot.None?
    ensures forall c | c in ss[k].accepted :: c !in ss[k].held
  {
    RunKeeps(ss, es, k);
  }

  /** Each accepted call is worked on at most once, and released only after that. */
  lemma WorkedOnce(ss: seq<State>, es: seq<Event>, k: nat)
    requires IsRun(ss, es) && k < |ss|
    ensures Distinct(Calls(ss[k].worked)) && ss[k].released <= Calls(ss[k].worked) <= ss[k].accepted
  {
    RunKeeps(ss, es, k);
    var s := ss[k];
    assert Calls(s.worked) <= s.accepted;
    forall i, j | 0 <= i < j < |Calls(s.worked)| ensures Calls(s.worked)[i] != Calls(s.worked)[j] {
      assert s.accepted[i] != s.accepted[j];
    }
  }

  lemma ClosedStays(s: State, e: Event)
    requires Owned(s) && Enabled(s, e) && s.x.closed
    ensures Step(s, e).x.closed && Step(s, e).accepted == s.accepted
    ensures s.worker == Exited ==> Step(s, e).worker == Exited
  {
  }

  /** Nothing is accepted after Close. */
  lemma {:induction false} NothingAfterClose(ss: seq<State>, es: seq<Event>, i: nat, j: nat)
    requires IsRun(ss, es) && i <= j < |ss| && ss[i].x.closed
    ensures ss[j].x.closed && ss[j].accepted == ss[i].accepted
  {
    if i < j {
      NothingAfterClose(ss, es, i, j - 1);
      RunKeeps(ss, es, j - 1);
      ClosedStays(ss[j - 1], es[j - 1]);
    }
  }

  /** The worker exits only with every accepted call worked on and released, and from then on
      nothing more is accepted: Join leaves no call behind. */
  lemma ExitLeavesNothing(ss: seq<State>, es: seq<Event>, i: nat, j: nat)
    requires IsRun(ss, es) && i <= j < |ss| && ss[i].worker == Exited
    ensures ss[j].accepted == ss[i].accepted == ss[i].released == Calls(ss[i].worked)
  {
    RunKeeps(ss, es, i);
    NothingAfterClose(ss, es, i, j);
  }

  /** Admission reopens only after the call before has been released. */
  lemma AdmittedAfterRelease(ss: seq<State>, es: seq<Event>, k: nat)
    requires IsRun(ss, es) && k < |es|
    requires es[k].TrySubmit? && ss[k + 1].accepted != ss[k].accepted
    ensures ss[k].released == ss[k].accepted && ss[k + 1].accepted == ss[k].released + [es[k].call]
    ensures es[k].call in ss[k].held && es[k].call !in ss[k + 1].held
  {
    RunKeeps(ss, es, k);
  }

  // --------------------------------------------------------------- when a call is accepted

  /** The one place is taken, told from the events alone: a submission that met no contention and
      a free place took it, and the worker has not reopened since. */
  predicate PlaceTaken(es: seq<Event>) {
    es != [] &&
    var before, e := es[..|es| - 1], es[|es| - 1];
    match e
    case TrySubmit(_, contended) => PlaceTaken(before) || (!contended && Close !in before)
    case Reopen => false
    case _ => PlaceTaken(before)
  }

  lemma BusyMoves(s: State, e: Event)
    requires Enabled(s, e)
    ensures Step(s, e).x.closed <==> s.x.closed || e == Close
    ensures Step(s, e).x.busy <==>
            match e
            case TrySubmit(_, contended) => s.x.busy || (!contended && !s.x.closed)
            case Reopen => false
            case _ => s.x.busy
  {
  }

  lemma PlaceAfter(es: seq<Event>, e: Event)
    ensures PlaceTaken(es + [e]) <==>
            match e
            case TrySubmit(_, contended) => PlaceTaken(es) || (!contended && Close !in es)
            case Reopen => false
            case _ => PlaceTaken(es)
    ensures Close in es + [e] <==> Close in es || e == Close
  {
    assert (es + [e])[..|es + [e]| - 1] == es;
  }

  lemma {:induction false} BusyExactlyWhen(ss: seq<State>, es: seq<Event>, k: nat)
    requires IsRun(ss, es) && k < |ss|
    ensures ss[k].x.busy <==> PlaceTaken(es[..k])
    ensures ss[k].x.closed <==> Close in es[..k]
  {
    if k > 0 {
      BusyExactlyWhen(ss, es, k - 1);
      BusyMoves(ss[k - 1], es[k - 1]);
      PlaceAfter(es[..k - 1], es[k - 1]);
      assert es[..k] == es[..k - 1] + [es[k - 1]];
    }
  }

  /** A submission is accepted exactly if it meets no contention, the executor was never closed,
      and the one place is free; accepted calls that were all given back make it free. */
  lemma AcceptedExactlyWhen(ss: seq<State>, es: seq<Event>, k: nat)
    requires IsRun(ss, es) && k < |es| && es[k].TrySubmit?
    ensures ss[k + 1].accepted == ss[k].accepted + [es[k].call] <==>
            !es[k].contended && Close !in es[..k] && !PlaceTaken(es[..k])
    ensures ss[k + 1].accepted == ss[k].accepted || ss[k + 1].accepted == ss[k].accepted + [es[k].call]
    ensures ss[k].released == ss[k].accepted && ss[k].worker == Looping ==> !PlaceTaken(es[..k])
  {
    BusyExactlyWhen(ss, es, k);
    RunKeeps(ss, es, k);
    assert |ss[k].accepted + [es[k].call]| == |ss[k].accepted| + 1;
  }
}
