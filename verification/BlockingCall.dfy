/** BlockingCallState as an object: its operations from beginning to end, with what the
    transport and other threads do between any two of their sections
    (include/grpcpp/impl/blocking_call.h, include/grpcpp/channel.h). The interleavings inside
    one operation of another thread are the subject of the client machine. */
module BlockingCall {
  import opened Statuses
  import M = ClientMachine

  /** A callback of the transport, or a TryCancel by another thread. */
  datatype Peer = Delivers(payload: string) | BecomesWritable | Terminates(code: int, text: Text) | Cancels

  /** How a call became terminal: by the peer's on_terminal, or on this side. */
  datatype Ending = NotYet | ByPeer(code: int, text: Text) | Locally

  /** The other side: what peers do before the n-th section, and how the transport answers in it.
      An operation that is still waiting at the `horizon` is left there. */
  class Transport {
    const peers: nat -> seq<Peer>
    const answers: nat -> ErrorCode
    const horizon: nat
    var now: nat
    var open: bool
    var mayDeliver: bool
    var cancelled: bool
    var ended: bool
    var released: bool
    ghost var delivered: seq<string>
    ghost var accepted: seq<M.Command>

    constructor (peers: nat -> seq<Peer>, answers: nat -> ErrorCode, horizon: nat)
      ensures now == 0 && !open && !mayDeliver && !cancelled && !ended && !released
      ensures delivered == [] && accepted == []
    {
      this.peers, this.answers, this.horizon := peers, answers, horizon;
      now, open, mayDeliver, cancelled, ended, released := 0, false, false, false, false, false;
      delivered, accepted := [], [];
    }

    predicate Live()
      reads this
    {
      open && !ended && !released
    }

    /** `p` is among what the peers do up to now. */
    ghost predicate Scheduled(p: Peer)
      reads this
    {
      exists n: nat :: n <= now && p in peers(n)
    }
  }

  /** ClientContext, for one call: cancelled_, terminal_, and whether the call is its target. */
  class ClientContext {
    var cancelled: bool
    var terminal: bool
    var registered: bool

    constructor ()
      ensures !cancelled && !terminal && !registered
    {
      cancelled, terminal, registered := false, false, false;
    }
  }

  class BlockingCallState {
    const net: Transport
    const context: ClientContext
    var stream: bool
    var hasMessage: bool
    var message: string
    var terminal: bool
    var status: Status
    var cancelRequested: bool
    var generation: nat
    ghost var returned: seq<string>
    ghost var ending: Ending

    function Buffered(): seq<string>
      reads this
    {
      if hasMessage then [message] else []
    }

    /** The status is the one the peer gave, its code 2 if it is none of 0 to 16, or not OK. */
    ghost predicate Explained()
      reads this, net
    {
      match ending
      case NotYet => !terminal
      case ByPeer(code, text) =>
        && terminal && net.ended && net.Scheduled(Terminates(code, text))
        && status.message == text && status.code == if 0 <= code <= 16 then code else 2
      case Locally => terminal && status.code != 0
    }

    /** The mailbox law, the life of the stream, cancellation, and why the call ended. */
    ghost predicate Valid()
      reads this, net, context
    {
      && net.delivered == returned + Buffered()
      && !(net.mayDeliver && hasMessage)
      && (!net.open ==> !net.mayDeliver && !stream && net.delivered == [])
      && (net.ended ==> net.open && terminal)
      && (terminal && status.IsOk() ==> net.ended)
      && (stream && cancelRequested ==> net.cancelled)
      && (context.registered && context.cancelled ==> cancelRequested || terminal)
      && Explained()
    }

    /** What time alone may change: nothing is taken or sent, the first terminal status stays and
        only the peer can set it, a buffered message stays, and a stream that has ended delivers
        no more. */
    twostate predicate Later()
      reads this, net, context
    {
      && returned == old(returned) && net.accepted == old(net.accepted)
      && stream == old(stream) && net.open == old(net.open) && net.released == old(net.released)
      && old(net.now) <= net.now && old(net.delivered) <= net.delivered
      && (old(terminal) ==> terminal && status == old(status) && ending == old(ending))
      && (!old(terminal) && terminal ==> ending.ByPeer?)
      && (old(net.ended) ==> net.ended && net.delivered == old(net.delivered))
      && (old(hasMessage) ==> hasMessage && message == old(message))
      && (!old(net.mayDeliver) ==> !net.mayDeliver && hasMessage == old(hasMessage))
      && (old(context.cancelled) ==> context.cancelled)
      && context.registered == old(context.registered) && context.terminal == old(context.terminal)
    }

    constructor (net: Transport, context: ClientContext)
      requires !net.open && !net.mayDeliver && !net.ended && net.delivered == []
      requires !context.registered
      ensures Valid() && this.net == net && this.context == context
      ensures !stream && !terminal && returned == []
    {
      this.net, this.context := net, context;
      stream, hasMessage, message, terminal, status := false, false, "", false, OK_STATUS;
      cancelRequested, generation, returned, ending := false, 0, [], NotYet;
    }

    // ------------------------------------------------------------------ sections

    method SetTerminal(s: Status)
      requires Valid() && !s.IsOk()
      modifies this`terminal, this`status, this`ending
      ensures Valid() && terminal && status == (if old(terminal) then old(status) else s)
      ensures ending == if old(terminal) then old(ending) else Locally
    {
      if terminal {
        return;
      }
      status, ending := s, Locally;
      terminal := true;
    }

    method Cancel()
      requires Valid()
      modifies this`cancelRequested, net`cancelled
      ensures Valid() && (terminal || (cancelRequested && (stream ==> net.cancelled)))
      ensures old(cancelRequested) ==> cancelRequested
    {
      if terminal {
        return;
      }
      cancelRequested := true;
      if stream {
        net.cancelled := true;
      }
    }

    method TryCancel()
      requires Valid()
      modifies this`cancelRequested, net`cancelled, context`cancelled
      ensures Valid() && (context.terminal || context.cancelled)
      ensures old(context.cancelled) ==> context.cancelled
    {
      if context.terminal {
        return;
      }
      var wasTarget := context.registered;
      if wasTarget {
        Cancel();
      }
      context.cancelled := true;
    }

    /** One act of a peer, if the transport's contract permits it. */
    method Suffer(p: Peer)
      requires Valid() && p in net.peers(net.now)
      modifies this, net, context
      ensures Valid() && Later() && net.now == old(net.now)
      ensures !old(terminal) && terminal ==> p == Terminates(ending.code, ending.text)
      ensures p.Delivers? && old(net.Live()) && old(net.mayDeliver) ==> hasMessage && message == p.payload
      ensures p.BecomesWritable? && old(net.Live()) ==> generation == old(generation) + 1
      ensures p.Terminates? && old(net.Live()) ==> terminal && net.ended
    {
      match p
      case Delivers(payload) =>
        if net.Live() && net.mayDeliver {
          message, hasMessage, net.mayDeliver := payload, true, false;
          net.delivered := net.delivered + [payload];
        }
      case BecomesWritable =>
        if net.Live() {
          generation := generation + 1;
        }
      case Terminates(code, text) =>
        if net.Live() {
          if !terminal {
            status, terminal, ending := NativeStatus(code, text), true, ByPeer(code, text);
          }
          net.ended := true;
        }
      case Cancels => TryCancel();
    }

    /** What happens before the next section. */
    method Others()
      requires Valid()
      modifies this, net, context
      ensures Valid() && Later() && net.now == old(net.now) + 1
      ensures !old(terminal) && terminal ==> Terminates(ending.code, ending.text) in net.peers(old(net.now))
    {
      var ps := net.peers(net.now);
      for i := 0 to |ps|
        invariant Valid() && Later() && net.now == old(net.now)
        invariant !old(terminal) && terminal ==> Terminates(ending.code, ending.text) in ps
      {
        Suffer(ps[i]);
      }
      net.now := net.now + 1;
    }

    method AwaitTerminal()
      requires Valid()
      modifies this, net, context
      ensures Valid() && Later() && (terminal || net.now >= net.horizon)
    {
      while !terminal && net.now < net.horizon
        invariant Valid() && Later()
        decreases net.horizon - net.now
      {
        Others();
      }
    }

    method AwaitMessage()
      requires Valid()
      modifies this, net, context
      ensures Valid() && Later() && (hasMessage || terminal || net.now >= net.horizon)
    {
      while !hasMessage && !terminal && net.now < net.horizon
        invariant Valid() && Later()
        decreases net.horizon - net.now
      {
        Others();
      }
    }

    // ---------------------------------------------------------------- operations

    /** Open: refused if the context was cancelled before; a cancel requested while the stream is
        being opened reaches it. None of it is lost: see Valid. */
    method Open()
      requires Valid() && !stream && !terminal && !net.open && !net.released && !context.registered
      requires net.delivered == []
      modifies this, net, context
      ensures Valid() && returned == [] && net.accepted == old(net.accepted)
      ensures terminal || (stream && (context.cancelled ==> net.cancelled))
      ensures ending.Locally? ==>
                || (old(context.cancelled || context.terminal) && status == Status(1, CancelledBeforeStart))
                || (net.answers(net.now) != Ok && status == ErrorStatus(net.answers(net.now)))
    {
      if context.cancelled || context.terminal {
        SetTerminal(Status(CANCELLED, CancelledBeforeStart));
        return;
      }
      context.registered := true;
      Others();
      var error := net.answers(net.now);
      if error != Ok {
        SetTerminal(ErrorStatus(error));
        return;
      }
      net.open, net.mayDeliver, stream := true, true, true;
      if cancelRequested {
        net.cancelled := true;
      }
    }

    /** The transport answers some time with an error that fails a command and is reported as `s`. */
    ghost predicate CommandFails(s: Status) {
      exists n: nat :: net.answers(n) !in {Ok, Closed, WouldBlock} && s == CommandFailure(net.answers(n))
    }

    /** RunCommand: its command is accepted exactly if it says so, once; success without that means
        that the call has ended well; failure that it is terminal, for the status reported or for
        an error of the transport. None: still waiting. */
    method RunCommand(cmd: M.Command) returns (result: Option<Status>, ran: bool)
      requires Valid()
      modifies this, net, context
      ensures Valid() && returned == old(returned) && stream == old(stream) && net.released == old(net.released)
      ensures net.accepted == old(net.accepted) + if ran then [cmd] else []
      ensures ran ==> result == Some(OK_STATUS) && stream && net.answers(net.now) == Ok
      ensures result.None? ==> net.now >= net.horizon
      ensures result.Some? && !ran ==> terminal && (result == Some(status) || CommandFails(result.value))
      ensures result.Some? && result.value.IsOk() && !ran ==> status.IsOk()
      ensures result.Some? && result.value.IsOk() && terminal ==> net.ended
      ensures old(terminal) ==> terminal && status == old(status) && ending == old(ending) && !ran
    {
      result, ran := None, false;
      if terminal {
        return Some(status), false;
      }
      while net.now < net.horizon
        invariant Valid() && Later()
        invariant old(terminal) ==> terminal
        decreases net.horizon - net.now
      {
        if terminal {
          return Some(status), false;
        }
        var seen := generation;
        Others();
        var error := if stream then net.answers(net.now) else Closed;
        if error == Ok {
          net.accepted := net.accepted + [cmd];
          return Some(OK_STATUS), true;
        }
        if error == Closed {
          AwaitTerminal();
          return if terminal then Some(status) else None, false;
        }
        if error != WouldBlock {
          var failure := CommandFailure(error);
          Others();
          SetTerminal(Status(failure.code, CommandFailed(failure.message)));
          return Some(failure), false;
        }
        while !terminal && generation == seen && net.now < net.horizon
          invariant Valid() && Later()
          decreases net.horizon - net.now
        {
          Others();
        }
      }
    }

    /** Read: the next message in the order of delivery, or None on a terminal call with nothing
        buffered. `done` is false if it is still waiting. */
    method Read() returns (done: bool, payload: Option<string>)
      requires Valid()
      modifies this, net, context
      ensures Valid() && stream == old(stream) && net.accepted == old(net.accepted) && net.released == old(net.released)
      ensures returned == old(returned) + (if payload.Some? then [payload.value] else [])
      ensures old(terminal) ==> terminal && status == old(status) && ending == old(ending)
      ensures payload.Some? ==> done
      ensures !done ==> net.now >= net.horizon && !hasMessage && !terminal
      ensures done && payload.None? ==> terminal && !hasMessage
      ensures done && payload.None? && (old(terminal) ==> old(net.ended)) ==> net.ended
      ensures old(net.ended) && !old(hasMessage) ==> payload.None?
      ensures !old(terminal) && ending.Locally? ==>
                payload.Some? && net.answers(net.now) !in {Ok, Closed, Unavailable, WouldBlock}
                && status == ErrorStatus(net.answers(net.now))
    {
      payload := None;
      AwaitMessage();
      if !hasMessage {
        return terminal, None;
      }
      payload := Some(message);
      hasMessage := false;
      returned := returned + [message];
      Others();
      Resume();
      done := true;
    }

    /** The last section of Read: the slot is free, so reception may go on; an error that is not
        normal for a stream that goes on or winds down ends the call. */
    method Resume()
      requires Valid() && !hasMessage
      modifies this`terminal, this`status, this`ending, net`mayDeliver
      ensures Valid() && (old(terminal) ==> status == old(status) && ending == old(ending))
      ensures terminal <==> old(terminal) || (stream && net.answers(net.now) !in {Ok, Closed, Unavailable, WouldBlock})
      ensures !old(terminal) && terminal ==> ending == Locally && status == ErrorStatus(net.answers(net.now))
    {
      if stream {
        var error := net.answers(net.now);
        if error == Ok {
          net.mayDeliver := true;
        } else if error != Closed && error != Unavailable && error != WouldBlock {
          SetTerminal(ErrorStatus(error));
        }
      }
    }

    /** Finish: the terminal status; the context and the stream are given up. */
    method Finish() returns (result: Option<Status>)
      requires Valid()
      modifies this, net, context
      ensures Valid() && returned == old(returned) && net.accepted == old(net.accepted)
      ensures result.Some? ==> terminal && result == Some(status) && !stream && context.terminal
      ensures result.None? ==> net.now >= net.horizon && !terminal
      ensures old(terminal) ==> result.Some? && terminal && status == old(status) && ending == old(ending)
      ensures !old(terminal) && terminal ==> ending.ByPeer?
      ensures old(net.ended) ==> net.ended && net.delivered == old(net.delivered)
    {
      AwaitTerminal();
      if !terminal {
        return None;
      }
      result := Some(status);
      context.registered, context.terminal := false, true;
      Others();
      if stream {
        stream, net.released := false, true;
      }
    }

    /** SendAndClose on a new call: the message, then, if that went well, the half-close. */
    method SendAndClose(request: string) returns (result: Option<Status>)
      requires Valid() && net.accepted == []
      modifies this, net, context
      ensures Valid() && returned == old(returned) && stream == old(stream) && net.released == old(net.released)
      ensures net.accepted <= [M.SendMessage(request), M.HalfClose]
      ensures result.Some? && !result.value.IsOk() ==> terminal
      ensures result.Some? && result.value.IsOk() && terminal ==> net.ended
      ensures result.None? ==> net.now >= net.horizon
    {
      var ran;
      result, ran := RunCommand(M.SendMessage(request));
      if result.Some? && result.value.IsOk() {
        assert net.accepted == if ran then [M.SendMessage(request)] else [];
        result, ran := RunCommand(M.HalfClose);
      }
    }

    /** Channel::CallUnary. It writes a response exactly if it returns OK, and then the transport
        has delivered that message and no other and has ended the call well. A second message
        makes the result INTERNAL (13), any other failure is the call's own status, and OK
        without a message is INTERNAL (13). The request and the half-close are accepted at most
        once each, in this order. None: still waiting. */
    method CallUnary(request: string) returns (result: Option<Status>, response: Option<string>)
      requires Valid() && !stream && !terminal && !net.open && !net.released && !context.registered
      requires net.delivered == [] && net.accepted == []
      modifies this, net, context
      ensures Valid() && net.accepted <= [M.SendMessage(request), M.HalfClose]
      ensures response.Some? <==> result.Some? && result.value.IsOk()
      ensures result.None? ==> net.now >= net.horizon
      ensures result.Some? ==>
                && terminal
                && result.value == (if |returned| > 1 then Status(13, MultipleResponses)
                                    else if status.code != 0 then status
                                    else if returned == [] then Status(13, ResponseMissing)
                                    else OK_STATUS)
      ensures response.Some? ==> net.delivered == [response.value] && net.ended && terminal && status.IsOk()
    {
      response := None;
      Open();
      var sent := SendAndClose(request);
      if sent.None? {
        return None, None;
      }
      var first, extra := None, None;
      if sent.value.IsOk() {
        var done;
        done, first := Read();
        if done {
          done, extra := Read();
        }
        if !done {
          return None, None;
        }
      }
      if extra.Some? {
        Cancel();
      }
      result := Finish();
      if result.None? {
        return;
      }
      if extra.Some? {
        return Some(Status(INTERNAL, MultipleResponses)), None;
      }
      if !result.value.IsOk() {
        return;
      }
      if first.None? {
        return Some(Status(INTERNAL, ResponseMissing)), None;
      }
      return Some(OK_STATUS), first;
    }
  }
}
