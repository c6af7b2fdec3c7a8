/** The echo service over heap-allocated stream states, each callback handler a method tied to
    the functions the theorems are about (benchmarks/server.zig). */
module EchoService {
  import opened Statuses
  import Spec = EchoSpec

  class StreamState {
    const self: nat
    var pending: Option<Spec.Pending>
    var remoteEnded: bool

    function View(): Spec.StreamState
      reads this
    {
      Spec.StreamState(self, pending, remoteEnded)
    }

    constructor (self: nat)
      ensures View() == Spec.StreamState(self, None, false)
    {
      this.self, pending, remoteEnded := self, None, false;
    }
  }

  class Service {
    var streams: map<Spec.Key, StreamState>
    var heap: Spec.Heap

    /** No state is registered twice. */
    ghost predicate Valid()
      reads this
    {
      forall k, l | k in streams && l in streams && k != l :: streams[k] != streams[l]
    }

    ghost function View(): Spec.Service
      reads this, streams.Values
    {
      Spec.Service(map k | k in streams :: streams[k].View(), heap)
    }

    constructor ()
      ensures Valid() && View() == Spec.FRESH
    {
      streams, heap := map[], Spec.Heap(map[], {}, 0, false);
    }

    twostate lemma Added(k: Spec.Key, new state: StreamState)
      requires streams == old(streams)[k := state]
      requires forall l | l in old(streams) && l != k :: streams[l].View() == old(streams[l].View())
      ensures View() == Spec.Service(old(View()).streams[k := state.View()], heap)
    {
      assert View().streams == old(View()).streams[k := state.View()];
    }

    twostate lemma Dropped(k: Spec.Key)
      requires streams == old(streams) - {k}
      requires forall l | l in streams :: streams[l].View() == old(streams[l].View())
      ensures View() == Spec.Service(old(View()).streams - {k}, heap)
    {
      assert View().streams == old(View()).streams - {k};
    }

    method RemoveState(k: Spec.Key)
      requires Valid()
      modifies this
      ensures Valid() && View() == Spec.Remove(old(View()), k)
      ensures streams == old(streams) - {k}
    {
      if k !in streams {
        assert streams - {k} == streams;
        return;
      }
      var state := streams[k];
      streams := streams - {k};
      if state.pending.Some? {
        heap := Spec.Free(heap, state.pending.value.buf);
      }
      heap := Spec.Free(heap, state.self);
      Dropped(k);
    }

    method StartStream(k: Spec.Key, created: bool, stored: bool) returns (error: bool)
      requires Valid()
      modifies this
      ensures Valid() && View() == Spec.Start(old(View()), k, created, stored).0
      ensures error == Spec.Start(old(View()), k, created, stored).1.error
    {
      if !created {
        return true;
      }
      var state := new StreamState(heap.next);
      heap := Spec.Alloc(heap, k);
      if k in streams || !stored {
        heap := Spec.Free(heap, state.self);
        return true;
      }
      streams := streams[k := state];
      Added(k, state);
      return false;
    }

    /** `effect` is what the handler did to its stream. */
    method HandleMessage(k: Spec.Key, kind: Spec.Kind, m: Spec.Message, answer: Spec.Answer, duped: bool)
      returns (effect: Spec.Effect)
      requires Valid()
      modifies this, streams.Values
      ensures Valid() && (View(), effect) == Spec.OnMessage(old(View()), k, kind, m, answer, duped)
    {
      if k !in streams {
        return Spec.NOTHING.(error := true);
      }
      if answer == Spec.Accepted {
        return Spec.NOTHING.(sent := [m]);
      }
      if answer != Spec.Blocked || !duped {
        RemoveState(k);
        return Spec.NOTHING.(error := true);
      }
      streams[k].pending := Some(Spec.Pending(kind, m, heap.next));
      heap := Spec.Alloc(heap, k);
      assert streams == streams[k := streams[k]];
      Added(k, streams[k]);
      return Spec.NOTHING.(pause := true);
    }

    method HandleRemoteEnd(k: Spec.Key, finished: bool) returns (effect: Spec.Effect)
      requires Valid()
      modifies this, streams.Values
      ensures Valid() && (View(), effect) == Spec.OnRemoteEnd(old(View()), k, finished)
    {
      if k !in streams {
        return Spec.NOTHING.(error := true);
      }
      streams[k].remoteEnded := true;
      assert streams == streams[k := streams[k]];
      Added(k, streams[k]);
      if streams[k].pending.Some? {
        return Spec.NOTHING;
      }
      RemoveState(k);
      return if finished then Spec.NOTHING.(finished := Some(true)) else Spec.NOTHING.(error := true);
    }

    method PendingDrained(k: Spec.Key, sent: Spec.Message, done: bool, failed: bool) returns (effect: Spec.Effect)
      requires Valid() && k in streams && streams[k].pending.Some?
      modifies this, streams.Values
      ensures Valid() && (View(), effect) == Spec.Drained(old(View()), k, sent, done, failed)
    {
      var state := streams[k];
      var buf := state.pending.value.buf;
      state.pending := None;
      heap := Spec.Free(heap, buf);
      assert streams == streams[k := streams[k]];
      Added(k, state);
      effect := Spec.NOTHING.(sent := [sent]);
      if !done {
        RemoveState(k);
        return effect.(finished := if failed then Some(false) else None, error := true);
      }
      if state.remoteEnded {
        RemoveState(k);
        return effect.(finished := Some(true));
      }
      return effect.(resumed := true);
    }

    method HandleWritable(k: Spec.Key, kind: Spec.Kind, answer: Spec.Answer, done: bool, failed: bool)
      returns (effect: Spec.Effect)
      requires Valid()
      modifies this, streams.Values
      ensures Valid() && (View(), effect) == Spec.OnWritable(old(View()), k, kind, answer, done, failed)
    {
      if k !in streams || streams[k].pending.None? {
        return Spec.NOTHING;
      }
      var p := streams[k].pending.value;
      if p.kind != kind || (answer != Spec.Accepted && answer != Spec.Blocked) {
        RemoveState(k);
        return Spec.NOTHING.(finished := if failed then Some(false) else None, error := true);
      }
      if answer == Spec.Blocked {
        return Spec.NOTHING;
      }
      effect := PendingDrained(k, p.message, done, failed);
    }

    /** Destroys every registered state; nothing stays allocated. */
    method Deinit() returns (ghost order: seq<Spec.Key>)
      requires Valid() && Spec.Ledger(View())
      modifies this
      ensures View() == Spec.RemoveAll(old(View()), order)
      ensures streams == map[] && heap.live == map[] && !heap.corrupt
    {
      order := [];
      ghost var start := View();
      while streams != map[]
        invariant Valid() && View() == Spec.RemoveAll(start, order)
        decreases |streams|
      {
        var k := Any();
        RemoveState(k);
        assert (order + [k])[..|order + [k]| - 1] == order;
        order := order + [k];
      }
      assert View().streams == map[];
      Spec.RemoveAllKeeps(start, order);
      Spec.DeinitFreesAll(start, order);
    }

    method Any() returns (k: Spec.Key)
      requires streams != map[]
      ensures k in streams
    {
      assert (forall x :: x !in streams) ==> streams == map[];
      k :| k in streams;
    }
  }
}
