/** The benchmark echo service: one heap-allocated state per stream, holding at most one
    message that could not be sent yet (benchmarks/server.zig). The functions are the callback
    handlers; allocation and transport outcomes are arguments. */
module EchoSpec {
  import opened Statuses

  type Key = nat

  datatype Kind = Raw | Typed

  datatype Compression = Identity | Gzip

  /** The transport's answer to a send. */
  datatype Answer = Accepted | Blocked | NotAccepted | NotEnabled | Failed

  /** sendRaw and sendTyped: a gzip message the peer cannot take is sent again as it is. */
  function SendEcho(c: Compression, first: Answer, second: Answer): Answer {
    if c == Gzip && (first == NotAccepted || first == NotEnabled) then second else first
  }

  datatype Message = Message(bytes: string, compression: Compression)

  /** A duplicated message; `buf` names its heap buffer. */
  datatype Pending = Pending(kind: Kind, message: Message, buf: nat)

  /** `self` names the heap object. */
  datatype StreamState = StreamState(self: nat, pending: Option<Pending>, remoteEnded: bool)

  /** The allocator: live objects and the streams they were allocated for, those freed, and
      whether one was freed while not live. */
  datatype Heap = Heap(live: map<nat, Key>, freed: set<nat>, next: nat, corrupt: bool)

  function Alloc(h: Heap, k: Key): Heap { h.(live := h.live[h.next := k], next := h.next + 1) }

  function Free(h: Heap, x: nat): Heap {
    h.(live := h.live - {x}, freed := h.freed + {x}, corrupt := h.corrupt || x !in h.live)
  }

  datatype Service = Service(streams: map<Key, StreamState>, heap: Heap)

  /** StreamState.deinit and destroy. */
  function Destroy(h: Heap, state: StreamState): Heap {
    Free(if state.pending.Some? then Free(h, state.pending.value.buf) else h, state.self)
  }

  function Remove(s: Service, k: Key): Service {
    if k in s.streams then Service(s.streams - {k}, Destroy(s.heap, s.streams[k])) else s
  }

  /** What a callback did to its stream: a send that was accepted, the answer to the receive,
      a finish that was accepted (None: OK was not asked for or not accepted), and an error
      returned to the transport. */
  datatype Effect = Effect(
    sent: seq<Message>, pause: bool, resumed: bool, finished: Option<bool>, error: bool)

  const NOTHING := Effect([], false, false, None, false)

  /** startStream: `created` and `stored` say whether the two allocations succeed. */
  function Start(s: Service, k: Key, created: bool, stored: bool): (Service, Effect) {
    if !created then (s, NOTHING.(error := true))
    else
      var id := s.heap.next;
      if k in s.streams || !stored then
        (s.(heap := Free(Alloc(s.heap, k), id)), NOTHING.(error := true))
      else (Service(s.streams[k := StreamState(id, None, false)], Alloc(s.heap, k)), NOTHING)
  }

  /** handleRawMessage and handleTypedMessage, with the caller's removal on error. */
  function OnMessage(s: Service, k: Key, kind: Kind, m: Message, answer: Answer, duped: bool): (Service, Effect) {
    if k !in s.streams then (s, NOTHING.(error := true))
    else if answer == Accepted then (s, NOTHING.(sent := [m]))
    else if answer != Blocked || !duped then (Remove(s, k), NOTHING.(error := true))
    else
      var p := Pending(kind, m, s.heap.next);
      (Service(s.streams[k := s.streams[k].(pending := Some(p))], Alloc(s.heap, k)), NOTHING.(pause := true))
  }

  /** handleRemoteEnd: `finished` says whether an OK finish is accepted. */
  function OnRemoteEnd(s: Service, k: Key, finished: bool): (Service, Effect) {
    if k !in s.streams then (s, NOTHING.(error := true))
    else
      var s1 := s.(streams := s.streams[k := s.streams[k].(remoteEnded := true)]);
      if s.streams[k].pending.Some? then (s1, NOTHING)
      else if finished then (Remove(s1, k), NOTHING.(finished := Some(true)))
      else (Remove(s1, k), NOTHING.(error := true))
  }

  /** pendingDrained, after the pending message has been sent, and the failure path that
      finishes with an error: `done` answers the OK finish or the resume, `failed` the other. */
  function Drained(s: Service, k: Key, sent: Message, done: bool, failed: bool): (Service, Effect)
    requires k in s.streams && s.streams[k].pending.Some?
  {
    var state := s.streams[k];
    var s1 := Service(s.streams[k := state.(pending := None)], Free(s.heap, state.pending.value.buf));
    var e := NOTHING.(sent := [sent]);
    if !done then (Remove(s1, k), e.(finished := if failed then Some(false) else None, error := true))
    else if state.remoteEnded then (Remove(s1, k), e.(finished := Some(true)))
    else (s1, e.(resumed := true))
  }

  /** handleRawWritable and handleTypedWritable, with failContinuation. */
  function OnWritable(s: Service, k: Key, kind: Kind, answer: Answer, done: bool, failed: bool): (Service, Effect) {
    if k !in s.streams || s.streams[k].pending.None? then (s, NOTHING)
    else
      var p := s.streams[k].pending.value;
      if p.kind != kind || (answer != Accepted && answer != Blocked) then
        (Remove(s, k), NOTHING.(finished := if failed then Some(false) else None, error := true))
      else if answer == Blocked then (s, NOTHING)
      else Drained(s, k, p.message, done, failed)
  }

  /** Service.deinit: the streams that are left are destroyed, in some order. */
  function RemoveAll(s: Service, ks: seq<Key>): Service {
    if ks == [] then s else Remove(RemoveAll(s, ks[..|ks| - 1]), ks[|ks| - 1])
  }

  // -------------------------------------------------------------------------- ownership

  predicate Holds(state: StreamState, x: nat) {
    x == state.self || (state.pending.Some? && x == state.pending.value.buf)
  }

  predicate Backed(live: map<nat, Key>, k: Key, state: StreamState) {
    && state.self in live && live[state.self] == k
    && (state.pending.Some? ==>
          var buf := state.pending.value.buf;
          buf in live && live[buf] == k && buf != state.self)
  }

  /** Each live object belongs to one registered stream that still refers to it, and each
      registered stream's objects are live. */
  ghost predicate Matched(streams: map<Key, StreamState>, live: map<nat, Key>) {
    && (forall x | x in live :: live[x] in streams && Holds(streams[live[x]], x))
    && (forall k | k in streams :: Backed(live, k, streams[k]))
  }

  /** Everything ever allocated is live or was freed, once. */
  ghost predicate Allocator(h: Heap) {
    && h.live.Keys !! h.freed && !h.corrupt
    && (forall x :: x in h.live || x in h.freed <==> 0 <= x < h.next)
  }

  ghost predicate Ledger(s: Service) { Matched(s.streams, s.heap.live) && Allocator(s.heap) }

  const FRESH := Service(map[], Heap(map[], {}, 0, false))

  lemma AllocatorAlloc(h: Heap, k: Key)
    requires Allocator(h)
    ensures Allocator(Alloc(h, k)) && h.next !in h.live
  {
  }

  lemma AllocatorFree(h: Heap, x: nat)
    requires Allocator(h) && x in h.live
    ensures Allocator(Free(h, x))
  {
  }

  lemma DestroyFrees(h: Heap, k: Key, state: StreamState)
    requires Allocator(h) && Backed(h.live, k, state)
    ensures Allocator(Destroy(h, state))
    ensures forall x :: x in Destroy(h, state).live <==> x in h.live && !Holds(state, x)
    ensures forall x | x in Destroy(h, state).live :: Destroy(h, state).live[x] == h.live[x]
  {
  }

  lemma RemoveKeeps(s: Service, k: Key)
    requires Ledger(s)
    ensures Ledger(Remove(s, k)) && k !in Remove(s, k).streams
  {
    if k in s.streams {
      DestroyFrees(s.heap, k, s.streams[k]);
    }
  }

  /** One stream's state replaced, and the heap changed to match. */
  lemma Replaced(streams: map<Key, StreamState>, live: map<nat, Key>, k: Key, state: StreamState, live': map<nat, Key>)
    requires Matched(streams, live)
    requires Backed(live', k, state)
    requires forall x | x in live' && live'[x] == k :: Holds(state, x)
    requires forall x | x in live' && live'[x] != k :: x in live && live[x] == live'[x]
    requires forall x | x in live && live[x] != k :: x in live' && live'[x] == live[x]
    ensures Matched(streams[k := state], live')
  {
  }

  lemma StartKeeps(s: Service, k: Key, created: bool, stored: bool)
    requires Ledger(s)
    ensures Ledger(Start(s, k, created, stored).0)
  {
    if created {
      var id, h := s.heap.next, Alloc(s.heap, k);
      AllocatorAlloc(s.heap, k);
      if k in s.streams || !stored {
        AllocatorFree(h, id);
        assert Free(h, id).live == s.heap.live;
      } else {
        Replaced(s.streams, s.heap.live, k, StreamState(id, None, false), h.live);
      }
    }
  }

  /** The ledger is kept exactly unless the message is set aside over another one, whose buffer
      is then lost. */
  lemma MessageKeepsExactlyWhen(s: Service, k: Key, kind: Kind, m: Message, answer: Answer, duped: bool)
    requires Ledger(s)
    ensures Ledger(OnMessage(s, k, kind, m, answer, duped).0) <==>
            !(k in s.streams && s.streams[k].pending.Some? && answer == Blocked && duped)
  {
    if k in s.streams && answer != Accepted {
      if answer != Blocked || !duped {
        RemoveKeeps(s, k);
      } else {
        SetAside(s, k, s.streams[k].(pending := Some(Pending(kind, m, s.heap.next))));
      }
    }
  }

  lemma SetAside(s: Service, k: Key, state: StreamState)
    requires Ledger(s) && k in s.streams
    requires state.self == s.streams[k].self && state.pending.Some? && state.pending.value.buf == s.heap.next
    ensures Ledger(Service(s.streams[k := state], Alloc(s.heap, k))) <==> s.streams[k].pending.None?
  {
    AllocatorAlloc(s.heap, k);
    var live' := Alloc(s.heap, k).live;
    if s.streams[k].pending.None? {
      Replaced(s.streams, s.heap.live, k, state, live');
    } else {
      var lost := s.streams[k].pending.value.buf;
      assert Backed(s.heap.live, k, s.streams[k]);
      assert lost in live' && live'[lost] == k && !Holds(state, lost);
    }
  }

  lemma EndKeeps(s: Service, k: Key, finished: bool)
    requires Ledger(s)
    ensures Ledger(OnRemoteEnd(s, k, finished).0)
  {
    if k in s.streams {
      var state := s.streams[k].(remoteEnded := true);
      Replaced(s.streams, s.heap.live, k, state, s.heap.live);
      RemoveKeeps(Service(s.streams[k := state], s.heap), k);
    }
  }

  lemma DrainedKeeps(s: Service, k: Key, sent: Message, done: bool, failed: bool)
    requires Ledger(s) && k in s.streams && s.streams[k].pending.Some?
    ensures Ledger(Drained(s, k, sent, done, failed).0)
  {
    var state := s.streams[k];
    assert Backed(s.heap.live, k, state);
    var h := Free(s.heap, state.pending.value.buf);
    AllocatorFree(s.heap, state.pending.value.buf);
    Replaced(s.streams, s.heap.live, k, state.(pending := None), h.live);
    RemoveKeeps(Service(s.streams[k := state.(pending := None)], h), k);
  }

  lemma WritableKeeps(s: Service, k: Key, kind: Kind, answer: Answer, done: bool, failed: bool)
    requires Ledger(s)
    ensures Ledger(OnWritable(s, k, kind, answer, done, failed).0)
  {
    RemoveKeeps(s, k);
    if k in s.streams && s.streams[k].pending.Some? {
      DrainedKeeps(s, k, s.streams[k].pending.value.message, done, failed);
    }
  }

  lemma {:induction false} RemoveAllKeeps(s: Service, ks: seq<Key>)
    requires Ledger(s)
    ensures Ledger(RemoveAll(s, ks))
    ensures forall k :: k in RemoveAll(s, ks).streams <==> k in s.streams && k !in ks
  {
    if ks != [] {
      var init, last := ks[..|ks| - 1], ks[|ks| - 1];
      RemoveAllKeeps(s, init);
      RemoveKeeps(RemoveAll(s, init), last);
      assert ks == init + [last];
    }
  }

  /** After deinit every object ever allocated has been freed exactly once. */
  lemma DeinitFreesAll(s: Service, ks: seq<Key>)
    requires Ledger(s) && forall k | k in s.streams :: k in ks
    ensures var s' := RemoveAll(s, ks);
            && s'.streams == map[] && s'.heap.live == map[] && !s'.heap.corrupt
            && forall x :: x in s'.heap.freed <==> 0 <= x < s'.heap.next
  {
    RemoveAllKeeps(s, ks);
  }
}
