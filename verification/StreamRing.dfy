/** StreamState of the benchmark client: the window kept in a fixed ring, each handler a method
    tied to the functions the laws are about (benchmarks/client.zig). */
module StreamRing {
  import opened Statuses
  import opened Window = StreamWindow
  import Latency

  /** The ring cell `i` places after `head`. */
  function Cell(head: nat, i: nat, n: nat): nat { if head + i < n then head + i else head + i - n }

  lemma NextCell(x: nat, n: nat)
    requires x < n
    ensures (x + 1) % n == if x + 1 == n then 0 else x + 1
  {
  }

  /** `flow` is the abstract state the ring stands for; `created` numbers the timestamps. */
  class StreamState {
    const pipeline: nat
    const timestamps: array<Stamp>
    var head: nat
    var tail: nat
    var inflight: nat
    var pending: Option<Stamp>
    var created: nat
    const measurements: Latency.Measurements
    const capacity: nat
    var terminalError: bool
    var cancelled: bool
    ghost var flow: Flow

    /** The window is read from the ring, oldest first. */
    ghost predicate Valid()
      reads this, timestamps, measurements
    {
      && 0 < pipeline == timestamps.Length && flow.pipeline == pipeline
      && head < pipeline && inflight <= pipeline && tail == Cell(head, inflight, pipeline)
      && inflight == |flow.window| && pending == flow.pending && created == |flow.created|
      && measurements.View() == flow.measured && capacity == flow.capacity && |measurements.samples| <= capacity
      && terminalError == flow.failed && cancelled == flow.cancelled
      && forall i | 0 <= i < inflight :: timestamps[Cell(head, i, pipeline)] == flow.window[i]
    }

    constructor (pipeline: nat, capacity: nat, seed: bv64, blank: Stamp)
      requires pipeline > 0
      ensures Valid() && flow == NewFlow(pipeline, capacity) && fresh(timestamps) && fresh(measurements)
      ensures measurements.seed == seed
    {
      measurements := new Latency.Measurements(seed);
      this.capacity := capacity;
      this.pipeline := pipeline;
      timestamps := new Stamp[pipeline](_ => blank);
      head, tail, inflight, pending, created := 0, 0, 0, None, 0;
      terminalError, cancelled := false, false;
      flow := NewFlow(pipeline, capacity);
    }

    /** The ring is written before the send and wound back when the send fails. The assertion
        at the head of the original is the precondition. */
    method SendReserved(ts: Stamp, a: Answer) returns (error: bool)
      requires Valid() && inflight < pipeline
      modifies this, timestamps, measurements
      ensures Valid() && flow == Window.SendReserved(old(flow), ts, a)
      ensures error == a.Refused?
      ensures a != Accepted ==> head == old(head) && tail == old(tail) && inflight == old(inflight)
    {
      timestamps[tail] := ts;
      NextCell(tail, pipeline);
      tail := (tail + 1) % timestamps.Length;
      inflight := inflight + 1;
      flow := Window.SendReserved(flow, ts, a);
      if a != Accepted {
        tail := if tail == 0 then timestamps.Length - 1 else tail - 1;
        inflight := inflight - 1;
        if a == Blocked {
          pending := Some(ts);
        }
      }
      return a.Refused?;
    }

    method Create(now: nat, measured: bool) returns (ts: Stamp)
      requires Valid()
      modifies this`flow, this`created
      ensures Valid() && (flow, ts) == Window.Create(old(flow), now, measured)
    {
      ts := Stamp(created, now, measured);
      created := created + 1;
      flow := flow.(created := flow.created + [ts]);
    }

    method Attempt(ts: Stamp, a: Answer, stopping: bool)
      requires Valid() && inflight < pipeline
      modifies this, timestamps, measurements
      ensures Valid() && flow == Window.Attempt(old(flow), ts, a, stopping)
    {
      var error := SendReserved(ts, a);
      if error {
        ghost var quietly := stopping && a.closed;
        if !(stopping && a.closed) {
          FailStream(ts.measured);
        }
        flow := GiveUp(old(flow), ts, quietly);
      }
    }

    method FailStream(measured: bool)
      requires Valid()
      modifies this`terminalError, this`cancelled, measurements
      ensures terminalError && cancelled
      ensures measurements.View() == flow.measured.(
                exchangeErrors := flow.measured.exchangeErrors + if measured then 1 else 0)
    {
      if measured {
        measurements.exchangeErrors := measurements.exchangeErrors + 1;
      }
      terminalError := true;
      cancelled := true;
    }

    method Bootstrap(now: nat, a: Answer)
      requires Valid() && inflight < pipeline
      modifies this, timestamps, measurements
      ensures Valid() && flow == Window.Bootstrap(old(flow), now, a)
    {
      var ts := Create(now, false);
      var error := SendReserved(ts, a);
      if error {
        flow := flow.(dropped := flow.dropped + [ts]);
      }
    }

    method Refill(active: bool, env: nat -> Tick)
      requires Valid()
      modifies this, timestamps, measurements
      ensures Valid() && flow == Window.Refill(old(flow), active, env)
    {
      if !active || pending.Some? {
        return;
      }
      ghost var f0 := flow;
      var i := 0;
      while inflight < pipeline
        invariant Valid() && pending.None?
        invariant Fill(flow, env, i) == Fill(f0, env, 0)
        decreases pipeline - inflight
      {
        var tick := env(i);
        if !tick.active {
          return;
        }
        var ts := Create(tick.now, tick.measured);
        Attempt(ts, tick.answer, tick.stopping);
        if tick.answer != Accepted {
          return;
        }
        i := i + 1;
      }
    }

    method OnWritable(active: bool, a: Answer, stopping: bool, again: bool, env: nat -> Tick)
      requires Valid() && Roomy(flow)
      modifies this, timestamps, measurements
      ensures Valid() && flow == Window.OnWritable(old(flow), active, a, stopping, again, env)
    {
      if !active {
        flow := flow.(pending := None, dropped := flow.dropped + Opt(flow.pending));
        pending := None;
        return;
      }
      if pending.Some? {
        var ts := pending.value;
        pending := None;
        flow := flow.(pending := None);
        Attempt(ts, a, stopping);
        if a != Accepted {
          return;
        }
      }
      Refill(again, env);
    }

    method OnResponse(finished: nat, valid: bool, active: bool, env: nat -> Tick)
      requires Valid() && measurements.eligible < Latency.U64_MAX
      modifies this, timestamps, measurements
      ensures Valid() && flow == Window.OnResponse(
                old(flow), finished, valid, Latency.Slot(old(measurements.eligible) + 1, measurements.seed), active, env)
    {
      if inflight == 0 {
        cancelled := true;
        flow := flow.(cancelled := true);
        return;
      }
      var ts := timestamps[head];
      assert ts == flow.window[0] by {
        assert Cell(head, 0, pipeline) == head;
      }
      Finish(ts, valid, Saturated(finished, ts.started));
      if !valid {
        cancelled := true;
        flow := flow.(cancelled := true);
        return;
      }
      Refill(active, env);
    }

    /** The head of the ring is done; its exchange is recorded. */
    method Finish(ts: Stamp, valid: bool, latency: nat)
      requires Valid() && inflight > 0 && measurements.eligible < Latency.U64_MAX
      modifies this, measurements
      ensures Valid()
      ensures flow == Complete(old(flow), Done(ts, valid, latency),
                               Latency.Slot(old(measurements.eligible) + 1, measurements.seed))
    {
      ghost var slot := Latency.Slot(measurements.eligible + 1, measurements.seed);
      measurements.RecordExchange(ts.measured, valid, latency, capacity);
      Shift(Done(ts, valid, latency), slot);
    }

    method Shift(ghost done: Done, ghost slot: nat)
      requires 0 < pipeline == timestamps.Length && flow.pipeline == pipeline
      requires head < pipeline && 0 < inflight <= pipeline && tail == Cell(head, inflight, pipeline)
      requires inflight == |flow.window| && pending == flow.pending && created == |flow.created|
      requires capacity == flow.capacity && terminalError == flow.failed && cancelled == flow.cancelled
      requires forall i | 0 <= i < inflight :: timestamps[Cell(head, i, pipeline)] == flow.window[i]
      requires |measurements.samples| <= capacity
      requires measurements.View() ==
               Latency.Record(flow.measured, done.stamp.measured, done.valid, done.latency, capacity, slot)
      modifies this
      ensures Valid() && flow == Complete(old(flow), done, slot)
    {
      NextCell(head, pipeline);
      head := (head + 1) % timestamps.Length;
      inflight := inflight - 1;
      flow := Complete(flow, done, slot);
    }
  }
}
