/** Every run of the echo service under a transport that respects pauses. */
module EchoRuns {
  import opened Statuses
  import opened EchoSpec

  /** A stream as the transport sees it. `closed`: a finish was accepted, a callback returned
      an error, or on_cancel was delivered; nothing but a repeated on_cancel follows. */
  datatype Net = Net(
    kind: Kind, received: seq<EchoSpec.Message>, sent: seq<EchoSpec.Message>,
    paused: bool, ended: bool, closed: bool, oks: nat)

  datatype State = State(service: Service, nets: map<Key, Net>)

  datatype Event =
    | Started(k: Key, kind: Kind, created: bool, stored: bool)
    | Received(k: Key, m: EchoSpec.Message, first: Answer, second: Answer, duped: bool)
    | Ended(k: Key, finished: bool)
    | Writable(k: Key, first: Answer, second: Answer, done: bool, failed: bool)
    | Cancelled(k: Key)

  /** The transport's contract: one open stream per key, messages only while not paused and
      before the end, one end. */
  predicate Enabled(s: State, e: Event) {
    if e.Started? then e.k !in s.nets || s.nets[e.k].closed
    else
      && e.k in s.nets
      && match e
         case Received(k, _, _, _, _) => !s.nets[k].closed && !s.nets[k].paused && !s.nets[k].ended
         case Ended(k, _) => !s.nets[k].closed && !s.nets[k].ended
         case Writable(k, _, _, _, _) => !s.nets[k].closed
         case _ => true
  }

  /** What the transport makes of a callback's commands. */
  function Commanded(n: Net, e: Effect): Net {
    n.(sent := n.sent + e.sent,
       paused := e.pause || (n.paused && !e.resumed),
       closed := n.closed || e.finished.Some?,
       oks := n.oks + if e.finished == Some(true) then 1 else 0)
  }

  function Returned(n: Net, e: Effect): Net { Commanded(n, e).(closed := n.closed || e.finished.Some? || e.error) }

  /** The message a writable callback sends, if any, decides the compression of the retry. */
  function PendingCompression(s: Service, k: Key): Compression {
    if k in s.streams && s.streams[k].pending.Some? then s.streams[k].pending.value.message.compression else Identity
  }

  function Step(s: State, e: Event): State
    requires Enabled(s, e)
  {
    match e
    case Started(k, kind, created, stored) =>
      var (service, effect) := Start(s.service, k, created, stored);
      State(service, s.nets[k := Returned(Net(kind, [], [], false, false, false, 0), effect)])
    case Received(k, m, first, second, duped) =>
      var n := s.nets[k];
      var (service, effect) := OnMessage(s.service, k, n.kind, m, SendEcho(m.compression, first, second), duped);
      State(service, s.nets[k := Returned(n.(received := n.received + [m]), effect)])
    case Ended(k, finished) =>
      var (service, effect) := OnRemoteEnd(s.service, k, finished);
      State(service, s.nets[k := Returned(s.nets[k].(ended := true), effect)])
    case Writable(k, first, second, done, failed) =>
      var answer := SendEcho(PendingCompression(s.service, k), first, second);
      var (service, effect) := OnWritable(s.service, k, s.nets[k].kind, answer, done, failed);
      State(service, s.nets[k := Commanded(s.nets[k], effect)])
    case Cancelled(k) => State(Remove(s.service, k), s.nets[k := s.nets[k].(closed := true)])
  }

  predicate Init(s: State) { s == State(FRESH, map[]) }

  ghost predicate IsRun(ss: seq<State>, es: seq<Event>) {
    && |ss| == |es| + 1
    && Init(ss[0])
    && forall i | 0 <= i < |es| :: Enabled(ss[i], es[i]) && ss[i + 1] == Step(ss[i], es[i])
  }

  // ------------------------------------------------------------------------- invariants

  function Waiting(state: StreamState): seq<EchoSpec.Message> {
    if state.pending.Some? then [state.pending.value.message] else []
  }

  /** A registered stream is open and has echoed all but the message set aside. */
  ghost predicate Echoing(n: Net, state: StreamState) {
    && !n.closed
    && n.received == n.sent + Waiting(state)
    && n.ended == state.remoteEnded
    && (n.paused <==> state.pending.Some?)
    && (n.ended ==> state.pending.Some?)
    && (state.pending.Some? ==> state.pending.value.kind == n.kind)
  }

  /** What holds of any stream, registered or not. */
  ghost predicate Honest(n: Net) {
    && n.sent <= n.received
    && n.oks <= 1
    && (n.oks == 1 ==> n.closed && n.ended && n.sent == n.received)
  }

  ghost predicate Inv(s: State) {
    && Ledger(s.service)
    && (forall k | k in s.service.streams :: k in s.nets && Echoing(s.nets[k], s.service.streams[k]))
    && (forall k | k in s.nets :: Honest(s.nets[k]))
  }

  /** A callback of stream `k` leaves the other streams alone. */
  ghost predicate OnlyStream(s: State, s': State, k: Key) {
    && (forall l | l != k :: (l in s'.service.streams <==> l in s.service.streams))
    && (forall l | l != k && l in s.service.streams :: s'.service.streams[l] == s.service.streams[l])
    && (forall l | l != k :: (l in s'.nets <==> l in s.nets))
    && (forall l | l != k && l in s.nets :: s'.nets[l] == s.nets[l])
  }

  lemma StepFrames(s: State, e: Event)
    requires Enabled(s, e)
    ensures OnlyStream(s, Step(s, e), e.k)
  {
  }

  /** What a step makes of its own stream. */
  ghost predicate OwnStream(s: State, k: Key) {
    && k in s.nets && Honest(s.nets[k])
    && (k in s.service.streams ==> Echoing(s.nets[k], s.service.streams[k]))
  }

  lemma StartedOwn(s: State, e: Event)
    requires e.Started? && Inv(s) && Enabled(s, e)
    ensures OwnStream(Step(s, e), e.k)
  {
    assert e.k !in s.service.streams;
  }

  lemma ReceivedOwn(s: State, e: Event)
    requires e.Received? && Inv(s) && Enabled(s, e)
    ensures OwnStream(Step(s, e), e.k)
  {
    var n := s.nets[e.k];
    if e.k in s.service.streams {
      assert Echoing(n, s.service.streams[e.k]);
    }
  }

  lemma EndedOwn(s: State, e: Event)
    requires e.Ended? && Inv(s) && Enabled(s, e)
    ensures OwnStream(Step(s, e), e.k)
  {
    assert Honest(s.nets[e.k]);
    if e.k in s.service.streams {
      assert Echoing(s.nets[e.k], s.service.streams[e.k]);
    }
  }

  lemma WritableOwn(s: State, e: Event)
    requires e.Writable? && Inv(s) && Enabled(s, e)
    ensures OwnStream(Step(s, e), e.k)
  {
    assert Honest(s.nets[e.k]);
    if e.k in s.service.streams {
      assert Echoing(s.nets[e.k], s.service.streams[e.k]);
    }
  }

  lemma StepOwn(s: State, e: Event)
    requires Inv(s) && Enabled(s, e)
    ensures OwnStream(Step(s, e), e.k)
  {
    match e
    case Started(_, _, _, _) => StartedOwn(s, e);
    case Received(_, _, _, _, _) => ReceivedOwn(s, e);
    case Ended(_, _) => EndedOwn(s, e);
    case Writable(_, _, _, _, _) => WritableOwn(s, e);
    case Cancelled(k) => assert Honest(s.nets[k]);
  }

  lemma StepLedger(s: State, e: Event)
    requires Inv(s) && Enabled(s, e)
    ensures Ledger(Step(s, e).service)
  {
    match e
    case Started(k, kind, created, stored) => StartKeeps(s.service, k, created, stored);
    case Received(k, m, first, second, duped) =>
      MessageKeepsExactlyWhen(s.service, k, s.nets[k].kind, m, SendEcho(m.compression, first, second), duped);
      assert k in s.service.streams ==> Echoing(s.nets[k], s.service.streams[k]);
    case Ended(k, finished) => EndKeeps(s.service, k, finished);
    case Writable(k, first, second, done, failed) =>
      WritableKeeps(s.service, k, s.nets[k].kind,
                    SendEcho(PendingCompression(s.service, k), first, second), done, failed);
    case Cancelled(k) => RemoveKeeps(s.service, k);
  }

  lemma StepKeeps(s: State, e: Event)
    requires Inv(s) && Enabled(s, e)
    ensures Inv(Step(s, e))
  {
    StepLedger(s, e);
    StepOwn(s, e);
    StepFrames(s, e);
  }

  lemma {:induction false} RunKeeps(ss: seq<State>, es: seq<Event>, k: nat)
    requires IsRun(ss, es) && k < |ss|
    ensures Inv(ss[k])
  {
    if k > 0 {
      RunKeeps(ss, es, k - 1);
      StepKeeps(ss[k - 1], es[k - 1]);
    }
  }

  // ---------------------------------------------------------------------------- results

  /** The echo: what a stream has sent is always a prefix of what it received, and while it is
      registered the message set aside is all that is missing. OK is sent at most once, and
      only when the remote end has come and everything received has been echoed. */
  lemma EchoesInOrder(ss: seq<State>, es: seq<Event>, i: nat, k: Key)
    requires IsRun(ss, es) && i < |ss| && k in ss[i].nets
    ensures var n := ss[i].nets[k];
            && n.sent <= n.received
            && (k in ss[i].service.streams ==> n.received == n.sent + Waiting(ss[i].service.streams[k]))
            && n.oks <= 1 && (n.oks == 1 ==> n.ended && n.sent == n.received)
  {
    RunKeeps(ss, es, i);
    assert Honest(ss[i].nets[k]);
  }

  /** Memory: the live objects are exactly the registered streams and the buffers they have set
      aside, nothing has been freed twice, and deinit frees what is left. */
  lemma NothingLeaks(ss: seq<State>, es: seq<Event>, i: nat, ks: seq<Key>)
    requires IsRun(ss, es) && i < |ss|
    ensures var s := ss[i].service;
            && !s.heap.corrupt
            && (forall x | x in s.heap.live :: s.heap.live[x] in s.streams && Holds(s.streams[s.heap.live[x]], x))
            && (forall k | k in s.streams :: Backed(s.heap.live, k, s.streams[k]))
    ensures (forall k | k in ss[i].service.streams :: k in ks) ==>
              && RemoveAll(ss[i].service, ks).heap.live == map[] && !RemoveAll(ss[i].service, ks).heap.corrupt
  {
    RunKeeps(ss, es, i);
    if forall k | k in ss[i].service.streams :: k in ks {
      DeinitFreesAll(ss[i].service, ks);
    }
  }

  /** Two error paths are dead: no stream is started over a registered one, and a pending
      message always has the kind of its stream. */
  lemma DeadErrors(ss: seq<State>, es: seq<Event>, i: nat, e: Event)
    requires IsRun(ss, es) && i < |ss| && Enabled(ss[i], e)
    ensures e.Started? ==> e.k !in ss[i].service.streams
    ensures e.Writable? && e.k in ss[i].service.streams && ss[i].service.streams[e.k].pending.Some? ==>
              ss[i].service.streams[e.k].pending.value.kind == ss[i].nets[e.k].kind
  {
    RunKeeps(ss, es, i);
  }

  // -------------------------------------------------------------- what a callback must do

  /** The message goes through: at once, or plain after the peer could not take it as gzip. */
  predicate Through(c: Compression, first: Answer, second: Answer) {
    first == Accepted || (c == Gzip && first in {NotAccepted, NotEnabled} && second == Accepted)
  }

  /** There is no room for the message, in either attempt. */
  predicate NoRoom(c: Compression, first: Answer, second: Answer) {
    first == Blocked || (c == Gzip && first in {NotAccepted, NotEnabled} && second == Blocked)
  }

  /** A stream is registered exactly if both its allocations succeed, and is given up otherwise. */
  lemma StartAnswered(ss: seq<State>, es: seq<Event>, i: nat)
    requires IsRun(ss, es) && i < |es| && es[i].Started?
    ensures es[i].k in ss[i + 1].nets
    ensures es[i].k in ss[i + 1].service.streams <==> es[i].created && es[i].stored
    ensures ss[i + 1].nets[es[i].k] == Net(es[i].kind, [], [], false, false, !(es[i].created && es[i].stored), 0)
  {
    RunKeeps(ss, es, i);
    DeadErrors(ss, es, i, es[i]);
    assert [] + NOTHING.sent == [];
  }

  /** A message is echoed exactly if it goes through; without room it is set aside and reception
      pauses, if it can be copied; in any other case the stream is given up. */
  lemma MessageAnswered(ss: seq<State>, es: seq<Event>, i: nat)
    requires IsRun(ss, es) && i < |es| && es[i].Received? && es[i].k in ss[i].service.streams
    ensures es[i].k in ss[i].nets && es[i].k in ss[i + 1].nets
    ensures var e, n, n' := es[i], ss[i].nets[es[i].k], ss[i + 1].nets[es[i].k];
            var aside := NoRoom(e.m.compression, e.first, e.second) && e.duped;
            && n'.received == n.received + [e.m]
            && n'.sent == n.sent + (if Through(e.m.compression, e.first, e.second) then [e.m] else [])
            && n'.paused == aside
            && n'.closed == !(aside || Through(e.m.compression, e.first, e.second))
  {
    RunKeeps(ss, es, i);
    assert Echoing(ss[i].nets[es[i].k], ss[i].service.streams[es[i].k]);
  }

  /** When the end comes, OK is sent if everything has been echoed, and exactly if the transport
      takes it; otherwise it has to wait for the message set aside. */
  lemma EndAnswered(ss: seq<State>, es: seq<Event>, i: nat)
    requires IsRun(ss, es) && i < |es| && es[i].Ended? && es[i].k in ss[i].service.streams
    ensures es[i].k in ss[i].nets && es[i].k in ss[i + 1].nets
    ensures var n, n' := ss[i].nets[es[i].k], ss[i + 1].nets[es[i].k];
            && n'.ended && n'.sent == n.sent
            && n'.oks == n.oks + (if n.sent == n.received && es[i].finished then 1 else 0)
            && n'.closed == (n.sent == n.received)
  {
    RunKeeps(ss, es, i);
    var n := ss[i].nets[es[i].k];
    assert Echoing(n, ss[i].service.streams[es[i].k]);
    assert |n.received| == |n.sent| + |Waiting(ss[i].service.streams[es[i].k])|;
  }

  /** The message set aside. */
  function Aside(n: Net): Option<EchoSpec.Message> {
    if |n.received| > |n.sent| then Some(n.received[|n.sent|]) else None
  }

  /** With room again, a message set aside is sent exactly if it goes through now; then OK follows
      if the end has come, and reception resumes if not, as far as the transport takes it. While
      there is no room the stream waits on, and any other answer gives it up. */
  lemma RoomAnswered(ss: seq<State>, es: seq<Event>, i: nat)
    requires IsRun(ss, es) && i < |es| && es[i].Writable? && es[i].k in ss[i].service.streams
    ensures es[i].k in ss[i].nets && es[i].k in ss[i + 1].nets
    ensures var e, n, n' := es[i], ss[i].nets[es[i].k], ss[i + 1].nets[es[i].k];
            match Aside(n)
            case None => n' == n
            case Some(m) =>
              if Through(m.compression, e.first, e.second) then
                && n'.sent == n.received
                && n'.oks == n.oks + (if n.ended && e.done then 1 else 0)
                && n'.paused == !(e.done && !n.ended)
                && n'.closed == ((e.done && n.ended) || (!e.done && e.failed))
              else if NoRoom(m.compression, e.first, e.second) then n' == n
              else n'.sent == n.sent && n'.oks == n.oks && n'.closed == e.failed && e.k !in ss[i + 1].service.streams
  {
    RunKeeps(ss, es, i);
    var n, state := ss[i].nets[es[i].k], ss[i].service.streams[es[i].k];
    assert Echoing(n, state);
    assert n.received == n.sent + Waiting(state);
    if state.pending.Some? {
      assert n.received[|n.sent|] == state.pending.value.message;
    }
    assert n.sent + [] == n.sent;
  }
}
