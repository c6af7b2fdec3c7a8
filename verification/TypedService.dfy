/** The objects of the typed server layer, each critical section a method tied to the
    functions the theorems are about (include/grpc_lite/cpp/typed_service.hpp,
    include/grpc_lite/cpp/sync_service.hpp). Transport answers are arguments. */
module TypedService {
  import opened Statuses
  import opened TypedCall
  import RequestStream
  import Registry
  import Dispatch = ServerDispatch

  /** TypedCallState; `accepted` records the commands the transport took. */
  class TypedCallState {
    var writable: bool
    var cancelled: bool
    var terminal: bool
    var finishSubmitted: bool
    var metadataSent: bool
    var onCancel: bool
    var onTerminal: bool
    ghost var accepted: Trace

    function View(): Call
      reads this
    {
      Call(writable, cancelled, terminal, finishSubmitted, metadataSent, onCancel, onTerminal)
    }

    constructor ()
      ensures View() == NEW_CALL && accepted == Nil
    {
      writable, cancelled, terminal, finishSubmitted, metadataSent := true, false, false, false, false;
      onCancel, onTerminal := false, false;
      accepted := Nil;
    }

    method EnsureInitialMetadata(a: ErrorCode) returns (error: ErrorCode)
      modifies this
      ensures Reply(View(), error, accepted) == old(Metadata(View(), accepted, a))
    {
      if metadataSent {
        return Ok;
      }
      error := a;
      if error == Ok {
        metadataSent := true;
        accepted := Then(accepted, InitialMetadata);
      }
    }

    method SendInitialMetadata(a: ErrorCode) returns (error: ErrorCode)
      modifies this
      ensures Reply(View(), error, accepted) == old(TypedCall.SendInitialMetadata(View(), accepted, a))
    {
      if terminal || finishSubmitted {
        return Closed;
      }
      if metadataSent {
        return InvalidState;
      }
      error := EnsureInitialMetadata(a);
    }

    method Send(payload: string, a: ErrorCode, b: ErrorCode) returns (error: ErrorCode)
      modifies this
      ensures Reply(View(), error, accepted) == old(TypedCall.Send(View(), accepted, payload, a, b))
    {
      if terminal || finishSubmitted {
        return Closed;
      }
      error := EnsureInitialMetadata(a);
      if error != Ok {
        return;
      }
      error := b;
      if error == Ok {
        accepted := Then(accepted, Message(payload));
      }
      if error == WouldBlock {
        writable := false;
      }
    }

    method Finish(code: StatusCode, a: ErrorCode, b: ErrorCode) returns (error: ErrorCode)
      modifies this
      ensures Reply(View(), error, accepted) == old(TypedCall.Finish(View(), accepted, code, a, b))
    {
      if terminal || finishSubmitted {
        return Closed;
      }
      error := EnsureInitialMetadata(a);
      if error != Ok {
        return;
      }
      error := b;
      if error == Ok {
        finishSubmitted := true;
        accepted := Then(accepted, Trailers(code));
      }
    }

    method OnWritable()
      modifies this
      ensures View() == old(TypedCall.OnWritable(View())) && accepted == old(accepted)
    {
      writable := true;
    }

    /** `run`: the observer to call after the section. */
    method OnCancel() returns (run: bool)
      modifies this
      ensures View() == old(TypedCall.OnCancel(View())) && accepted == old(accepted)
      ensures run == old(onCancel)
    {
      cancelled := true;
      run := onCancel;
    }

    method OnTerminal() returns (run: bool)
      modifies this
      ensures View() == old(TypedCall.OnTerminal(View())) && accepted == old(accepted)
      ensures run == old(onTerminal)
    {
      terminal := true;
      run := onTerminal;
      onCancel, onTerminal := false, false;
    }

    method SetOnCancel() returns (invoke: bool)
      modifies this
      ensures View() == old(TypedCall.SetOnCancel(View())) && accepted == old(accepted)
      ensures invoke == old(cancelled)
    {
      invoke := cancelled;
      if !invoke && !terminal {
        onCancel := true;
      }
    }

    method SetOnTerminal() returns (invoke: bool)
      modifies this
      ensures View() == old(TypedCall.SetOnTerminal(View())) && accepted == old(accepted)
      ensures invoke == old(terminal)
    {
      invoke := terminal;
      if !invoke {
        onTerminal := true;
      }
    }
  }

  method FinishResponse(
      state: TypedCallState, payload: Option<string>, status: Status,
      a: ErrorCode, b: ErrorCode, a': ErrorCode, b': ErrorCode)
    returns (error: ErrorCode)
    modifies state
    ensures Reply(state.View(), error, state.accepted)
         == old(TypedCall.FinishResponse(state.View(), state.accepted, payload, status, a, b, a', b'))
  {
    if !status.IsOk() {
      error := state.Finish(status.code, a, b);
      return;
    }
    if payload.None? {
      error := state.Finish(INTERNAL, a, b);
      return;
    }
    var sent := state.Send(payload.value, a, b);
    error := AfterSend(state, sent, a', b');
  }

  method AfterSend(state: TypedCallState, sent: ErrorCode, a: ErrorCode, b: ErrorCode) returns (error: ErrorCode)
    modifies state
    ensures Reply(state.View(), error, state.accepted)
         == old(TypedCall.AfterSend(Reply(state.View(), sent, state.accepted), a, b))
  {
    if sent != Ok {
      var finished := state.Finish(SendErrorStatus(sent).code, a, b);
      return if finished == Ok then sent else finished;
    }
    error := state.Finish(OK, a, b);
  }

  /** TypedRequestStreamState. */
  class TypedRequestStreamState {
    const call: TypedCallState
    var message: Option<string>
    var remoteEnd: bool
    var rejected: bool
    var cancelled: bool
    var terminal: bool

    function View(): RequestStream.Mailbox
      reads this
    {
      RequestStream.Mailbox(message, remoteEnd, rejected, cancelled, terminal)
    }

    constructor (call: TypedCallState)
      ensures View() == RequestStream.NEW_MAILBOX && this.call == call
    {
      this.call := call;
      message, remoteEnd, rejected, cancelled, terminal := None, false, false, false, false;
    }

    method Reject(code: StatusCode, a: ErrorCode, b: ErrorCode)
      modifies this`rejected, call
      ensures rejected
      ensures var r := old(TypedCall.Finish(call.View(), call.accepted, code, a, b));
              call.View() == r.call && call.accepted == r.trace
    {
      rejected := true;
      var _ := call.Finish(code, a, b);
    }

    method OnMessage(p: RequestStream.Payload, a: ErrorCode, b: ErrorCode)
      modifies this, call
      ensures View() == old(RequestStream.Put(View(), p))
      ensures var v := old(RequestStream.Judge(View(), p));
              if v.Refused? then
                var r := old(TypedCall.Finish(call.View(), call.accepted, RequestStream.RefusalCode(v.why), a, b));
                call.View() == r.call && call.accepted == r.trace
              else call.View() == old(call.View()) && call.accepted == old(call.accepted)
    {
      if rejected || remoteEnd || terminal {
        return;
      }
      if message.Some? {
        Reject(INTERNAL, a, b);
      } else if p.size > RequestStream.INT_MAX {
        Reject(RESOURCE_EXHAUSTED, a, b);
      } else if p.parsed.None? {
        Reject(INVALID_ARGUMENT, a, b);
      } else {
        message := p.parsed;
      }
    }

    method OnRemoteEnd()
      modifies this
      ensures View() == old(View()).(remoteEnd := true)
    {
      remoteEnd := true;
    }

    method OnCancel()
      modifies this
      ensures View() == old(View()).(cancelled := true)
    {
      cancelled := true;
    }

    method OnTerminal()
      modifies this
      ensures View() == old(View()).(terminal := true)
    {
      terminal := true;
    }

    /** The section of Read after its wait. */
    method TakeNext() returns (request: Option<string>)
      requires RequestStream.Awake(View())
      modifies this
      ensures View() == RequestStream.Take(old(View()))
      ensures request == old(message)
      ensures request.None? ==> remoteEnd || rejected || cancelled || terminal
    {
      request := message;
      message := None;
    }
  }

  // -------------------------------------------------------------- the admission gate

  /** What other threads do to the gate between a load and the exchange after it, or a
      spurious failure of the exchange. */
  datatype Move = Spurious | OtherBegin | OtherCommit | OtherStop

  function Moved(g: Dispatch.Gate, m: Move): Dispatch.Gate {
    match m
    case Spurious => g
    case OtherBegin => Dispatch.BeginStart(g)
    case OtherCommit => Dispatch.CommitStart(g)
    case OtherStop => Dispatch.Stop(g)
  }

  function After(g: Dispatch.Gate, ms: seq<Move>): Dispatch.Gate {
    if ms == [] then g else Moved(After(g, ms[..|ms| - 1]), ms[|ms| - 1])
  }

  class CallAdmissionGate {
    var state: Dispatch.Gate

    constructor ()
      ensures state == Dispatch.Queued
    {
      state := Dispatch.Queued;
    }

    method BeginStart() returns (ok: bool)
      modifies this
      ensures state == Dispatch.BeginStart(old(state)) && (ok <==> old(state) == Dispatch.Queued)
    {
      ok := state == Dispatch.Queued;
      if ok {
        state := Dispatch.Starting;
      }
    }

    method CommitStart() returns (ok: bool)
      modifies this
      ensures state == Dispatch.CommitStart(old(state)) && (ok <==> old(state) == Dispatch.Starting)
    {
      ok := state == Dispatch.Starting;
      if ok {
        state := Dispatch.Running;
      }
    }

    /** The compare-exchange loop takes effect at one point among the others' moves, as the
        atomic Stop would, however often the exchange fails. */
    method Stop(moves: seq<Move>) returns (used: nat)
      modifies this
      ensures used <= |moves|
      ensures state == Dispatch.Stop(After(old(state), moves[..used]))
      ensures state == Dispatch.Running || state == Dispatch.Stopped
    {
      used := 0;
      var seen := state;
      while seen == Dispatch.Queued || seen == Dispatch.Starting
        invariant used <= |moves| && seen == state == After(old(state), moves[..used])
        decreases |moves| - used
      {
        if used == |moves| {
          state := Dispatch.Stopped;
          return;
        }
        var move := moves[used];
        assert moves[..used + 1][..|moves[..used + 1]| - 1] == moves[..used];
        used := used + 1;
        state := Moved(state, move);
        if move != Spurious && state == seen {
          state := Dispatch.Stopped;
          return;
        }
        seen := state;
      }
    }
  }

  // ------------------------------------------------------------------- the registry

  /** CallState of a single-request method. */
  class CallState {
    const typed: TypedCallState
    var request: Option<string>
    var requestCount: nat
    var rejected: bool
    var dispatched: bool
    ghost var taken: seq<string>
    ghost var runs: seq<string>

    function Single(): Registry.Single
      reads this
    {
      Registry.Single(request, requestCount, rejected, dispatched)
    }

    ghost function View(): Registry.Entry
      reads this, typed
    {
      Registry.Entry(typed.View(), typed.accepted, Single(), RequestStream.NEW_MAILBOX, taken, runs, 0)
    }

    constructor ()
      ensures View() == Registry.NEW_ENTRY && fresh(typed)
    {
      typed := new TypedCallState();
      request, requestCount, rejected, dispatched := None, 0, false, false;
      taken, runs := [], [];
    }

    method Reject(code: StatusCode, a: ErrorCode, b: ErrorCode)
      modifies this`rejected, typed
      ensures rejected && View() == Registry.Refuse(old(View()).(single := Single()), Some(code), a, b)
    {
      rejected := true;
      var _ := typed.Finish(code, a, b);
    }

    method OnMessage(p: RequestStream.Payload, a: ErrorCode, b: ErrorCode)
      modifies this, typed
      ensures View() == Registry.Tell(false, old(View()), Registry.GotMessage(p, a, b))
    {
      if rejected || dispatched {
        return;
      }
      if requestCount != 0 {
        Reject(INVALID_ARGUMENT, a, b);
        return;
      }
      requestCount := 1;
      if p.size > RequestStream.INT_MAX {
        Reject(RESOURCE_EXHAUSTED, a, b);
      } else if p.parsed.None? {
        Reject(INVALID_ARGUMENT, a, b);
      } else {
        request := p.parsed;
      }
    }

    /** TakeRequest and the dispatch that follows it. */
    method OnRemoteEnd(handler: bool, a: ErrorCode, b: ErrorCode) returns (run: Option<string>)
      modifies this, typed
      ensures View() == Registry.Tell(false, old(View()), Registry.GotEnd(handler, a, b))
      ensures runs == old(runs) + if run.Some? then [run.value] else []
    {
      run := None;
      if rejected || dispatched {
        return;
      }
      if requestCount != 1 || request.None? {
        Reject(INVALID_ARGUMENT, a, b);
        return;
      }
      dispatched := true;
      taken := taken + [request.value];
      if handler {
        run := request;
        runs := runs + [request.value];
      } else {
        var _ := typed.Finish(UNAVAILABLE, a, b);
      }
    }
  }

  /** Impl of a single-request method: the registered calls by id. */
  class Impl {
    var calls: map<nat, CallState>
    var handler: bool
    ghost var ended: seq<(nat, Registry.Entry)>

    /** No call is registered twice. */
    ghost predicate Valid()
      reads this, calls.Values
    {
      forall i, j | i in calls && j in calls && i != j :: calls[i] != calls[j] && calls[i].typed != calls[j].typed
    }

    ghost function Typed(): set<object>
      reads this, calls.Values
    {
      set i | i in calls :: calls[i].typed
    }

    ghost function View(): Registry.Reg
      reads this, calls.Values, Typed()
    {
      Registry.Reg(map i | i in calls :: calls[i].View(), handler, ended)
    }

    constructor ()
      ensures Valid() && View() == Registry.Exec(false, []) && calls == map[]
    {
      calls, handler, ended := map[], true, [];
    }

    /** Only the call `id` has changed. */
    twostate lemma OneChanged(id: nat)
      requires calls == old(calls) && handler == old(handler) && ended == old(ended) && id in calls
      requires forall i | i in calls && i != id :: calls[i].View() == old(calls[i].View())
      ensures View() == old(View()).(calls := old(View()).calls[id := calls[id].View()])
    {
    }

    method OnStart(id: nat, found: bool)
      requires Valid()
      modifies this
      ensures Valid() && View() == Registry.Step(false, old(View()), Registry.Start(id, found, Ok, Ok))
    {
      if found {
        var state := new CallState();
        calls := calls[id := state];
        Started(id, state);
      }
    }

    twostate lemma Started(id: nat, new state: CallState)
      requires calls == old(calls)[id := state] && handler == old(handler) && ended == old(ended)
      requires forall i | i in old(calls) && i != id :: calls[i].View() == old(calls[i].View())
      ensures View() == old(View()).(calls := old(View()).calls[id := state.View()])
    {
      assert View().calls == old(View()).calls[id := state.View()];
    }

    method OnMessage(id: nat, found: bool, p: RequestStream.Payload, a: ErrorCode, b: ErrorCode)
      requires Valid()
      modifies calls.Values, Typed()
      ensures Valid() && View() == Registry.Step(false, old(View()), Registry.Message(id, found, p, a, b))
    {
      if found && id in calls {
        calls[id].OnMessage(p, a, b);
        OneChanged(id);
      }
    }

    method OnRemoteEnd(id: nat, found: bool, a: ErrorCode, b: ErrorCode) returns (run: Option<string>)
      requires Valid()
      modifies calls.Values, Typed()
      ensures Valid() && View() == Registry.Step(false, old(View()), Registry.RemoteEnd(id, found, a, b))
      ensures if found && id in calls then calls[id].runs == old(calls[id].runs) + (if run.Some? then [run.value] else [])
              else run.None?
    {
      run := None;
      if found && id in calls {
        run := calls[id].OnRemoteEnd(handler, a, b);
        OneChanged(id);
      }
    }

    method OnWritable(id: nat, found: bool)
      requires Valid()
      modifies Typed()
      ensures Valid() && View() == Registry.Step(false, old(View()), Registry.Writable(id, found))
    {
      if found && id in calls {
        calls[id].typed.OnWritable();
        OneChanged(id);
      }
    }

    method OnCancel(id: nat, found: bool) returns (run: bool)
      requires Valid()
      modifies Typed()
      ensures Valid() && View() == Registry.Step(false, old(View()), Registry.Cancel(id, found))
      ensures run == old(found && id in calls && calls[id].typed.onCancel)
    {
      run := false;
      if found && id in calls {
        run := calls[id].typed.OnCancel();
        OneChanged(id);
      }
    }

    method OnTerminal(id: nat) returns (run: bool)
      requires Valid()
      modifies this, Typed()
      ensures Valid() && View() == Registry.Step(false, old(View()), Registry.Terminal(id))
      ensures run == old(id in calls && calls[id].typed.onTerminal)
    {
      run := false;
      if id in calls {
        var state := calls[id];
        calls := calls - {id};
        run := state.typed.OnTerminal();
        ended := ended + [(id, state.View())];
        Removed(id);
      }
    }

    twostate lemma Removed(id: nat)
      requires calls == old(calls) - {id} && handler == old(handler)
      requires forall i | i in calls :: calls[i].View() == old(calls[i].View())
      ensures View() == old(View()).(calls := old(View()).calls - {id}, ended := ended)
    {
    }
  }
}
