/** The pipelined stream of the benchmark client: a ring of the timestamps in flight and one
    timestamp that could not be sent yet (benchmarks/client.zig). */
module StreamWindow {
  import opened Statuses
  import Latency

  /** A timestamp; `id` is its number in the order of creation. */
  datatype Stamp = Stamp(id: nat, started: nat, measured: bool)

  /** The transport's answer to a send; `closed`: SendClosed or StreamClosed. */
  datatype Answer = Accepted | Blocked | Refused(closed: bool)

  /** What one turn of refill finds: the clock, whether sending is active then, whether the
      request is measured, the answer to the send, and whether the phase is stop. */
  datatype Tick = Tick(now: nat, active: bool, measured: bool, answer: Answer, stopping: bool)

  datatype Done = Done(stamp: Stamp, valid: bool, latency: nat)

  /** `window`, `pending` and `measured`, a reservoir of `capacity` latencies with its counters,
      are the stream's state; the rest is history. */
  datatype Flow = Flow(
    pipeline: nat, window: seq<Stamp>, pending: Option<Stamp>, capacity: nat, measured: Latency.Measured,
    created: seq<Stamp>, accepted: seq<Stamp>, completed: seq<Done>, dropped: seq<Stamp>,
    errors: nat, failed: bool, cancelled: bool)

  function NewFlow(pipeline: nat, capacity: nat): Flow {
    Flow(pipeline, [], None, capacity, Latency.EMPTY, [], [], [], [], 0, false, false)
  }

  function Create(f: Flow, now: nat, measured: bool): (Flow, Stamp) {
    var ts := Stamp(|f.created|, now, measured);
    (f.(created := f.created + [ts]), ts)
  }

  /** sendReserved; an error leaves the flow alone. */
  function SendReserved(f: Flow, ts: Stamp, a: Answer): Flow {
    match a
    case Accepted => f.(window := f.window + [ts], accepted := f.accepted + [ts])
    case Blocked => f.(pending := Some(ts))
    case Refused(_) => f
  }

  /** failStream, unless the stream is being closed anyway; the timestamp is gone. */
  function GiveUp(f: Flow, ts: Stamp, quietly: bool): Flow {
    var f1 := f.(dropped := f.dropped + [ts]);
    var one := if ts.measured then 1 else 0;
    if quietly then f1
    else
      f1.(measured := f.measured.(exchangeErrors := f.measured.exchangeErrors + one),
          errors := f.errors + one, failed := true, cancelled := true)
  }

  function Attempt(f: Flow, ts: Stamp, a: Answer, stopping: bool): Flow {
    if a.Refused? then GiveUp(f, ts, stopping && a.closed) else SendReserved(f, ts, a)
  }

  /** The loop of refill, from turn `i` on. */
  function Fill(f: Flow, env: nat -> Tick, i: nat): Flow
    decreases f.pipeline - |f.window|
  {
    if |f.window| >= f.pipeline || !env(i).active then f
    else
      var (f1, ts) := Create(f, env(i).now, env(i).measured);
      var f2 := Attempt(f1, ts, env(i).answer, env(i).stopping);
      if env(i).answer == Accepted then Fill(f2, env, i + 1) else f2
  }

  function Refill(f: Flow, active: bool, env: nat -> Tick): Flow {
    if !active || f.pending.Some? then f else Fill(f, env, 0)
  }

  function Bootstrap(f: Flow, now: nat, a: Answer): Flow {
    var (f1, ts) := Create(f, now, false);
    if a.Refused? then f1.(dropped := f1.dropped + [ts]) else SendReserved(f1, ts, a)
  }

  function Opt(p: Option<Stamp>): seq<Stamp> { if p.Some? then [p.value] else [] }

  /** `again` says whether sending is still active when refill asks. */
  function OnWritable(f: Flow, active: bool, a: Answer, stopping: bool, again: bool, env: nat -> Tick): Flow {
    if !active then f.(pending := None, dropped := f.dropped + Opt(f.pending))
    else if f.pending.None? then Refill(f, again, env)
    else
      var f1 := Attempt(f.(pending := None), f.pending.value, a, stopping);
      if a == Accepted then Refill(f1, again, env) else f1
  }

  function Saturated(finished: nat, started: nat): (r: nat)
    ensures finished <= started + r && (r > 0 ==> finished == started + r)
  {
    if finished >= started then finished - started else 0
  }

  /** The oldest timestamp in flight is done; `slot` is what the sampling generator picks. */
  function Complete(f: Flow, done: Done, slot: nat): Flow
    requires f.window != []
  {
    f.(window := f.window[1..], completed := f.completed + [done],
       measured := Latency.Record(f.measured, done.stamp.measured, done.valid, done.latency, f.capacity, slot))
  }

  function OnResponse(f: Flow, finished: nat, valid: bool, slot: nat, active: bool, env: nat -> Tick): Flow {
    if f.window == [] then f.(cancelled := true)
    else
      var ts := f.window[0];
      var f1 := Complete(f, Done(ts, valid, Saturated(finished, ts.started)), slot);
      if valid then Refill(f1, active, env) else f1.(cancelled := true)
  }

  // ------------------------------------------------------------------------- the laws

  function Stamps(ds: seq<Done>): seq<Stamp> {
    if ds == [] then [] else Stamps(ds[..|ds| - 1]) + [ds[|ds| - 1].stamp]
  }

  /** Room: a pending timestamp has a free place in the pipeline. */
  predicate Roomy(f: Flow) {
    |f.window| <= f.pipeline && (f.pending.Some? ==> |f.window| < f.pipeline)
  }

  /** First in, first out: responses complete timestamps in the order they were accepted. */
  predicate Fifo(f: Flow) { f.accepted == Stamps(f.completed) + f.window }

  /** Every timestamp created is in exactly one place. */
  ghost predicate Placed(f: Flow) {
    && multiset(f.created) == multiset(f.accepted) + multiset(Opt(f.pending)) + multiset(f.dropped)
    && forall i | 0 <= i < |f.created| :: f.created[i].id == i
  }

  ghost predicate Sound(f: Flow) { Roomy(f) && Fifo(f) && Placed(f) }

  /** A timestamp created and not placed yet. */
  ghost predicate Carrying(f: Flow, ts: Stamp) {
    && f.pending.None? && |f.window| < f.pipeline && Fifo(f)
    && multiset(f.created) == multiset(f.accepted) + multiset(f.dropped) + multiset{ts}
    && forall i | 0 <= i < |f.created| :: f.created[i].id == i
  }

  lemma CreateCarries(f: Flow, now: nat, measured: bool)
    requires Sound(f) && f.pending.None? && |f.window| < f.pipeline
    ensures Carrying(Create(f, now, measured).0, Create(f, now, measured).1)
  {
    assert Opt(f.pending) == [];
  }

  lemma SentSound(f: Flow, ts: Stamp)
    requires Carrying(f, ts)
    ensures Sound(SendReserved(f, ts, Accepted))
  {
    assert f.accepted + [ts] == Stamps(f.completed) + (f.window + [ts]);
    assert multiset(f.accepted + [ts]) == multiset(f.accepted) + multiset{ts};
    assert multiset(Opt(None)) == multiset{};
  }

  lemma BlockedSound(f: Flow, ts: Stamp)
    requires Carrying(f, ts)
    ensures Sound(SendReserved(f, ts, Blocked))
  {
    assert multiset(Opt(Some(ts))) == multiset{ts};
  }

  lemma GiveUpSound(f: Flow, ts: Stamp, quietly: bool)
    requires Carrying(f, ts)
    ensures Sound(GiveUp(f, ts, quietly))
  {
    assert multiset(f.dropped + [ts]) == multiset(f.dropped) + multiset{ts};
    assert multiset(Opt(None)) == multiset{};
  }

  lemma AttemptSound(f: Flow, ts: Stamp, a: Answer, stopping: bool)
    requires Carrying(f, ts)
    ensures Sound(Attempt(f, ts, a, stopping))
    ensures a == Accepted ==> Attempt(f, ts, a, stopping).pending.None?
  {
    match a
    case Accepted => SentSound(f, ts);
    case Blocked => BlockedSound(f, ts);
    case Refused(closed) => GiveUpSound(f, ts, stopping && closed);
  }

  lemma {:induction false} FillSound(f: Flow, env: nat -> Tick, i: nat)
    requires Sound(f) && f.pending.None?
    ensures Sound(Fill(f, env, i))
    decreases f.pipeline - |f.window|
  {
    if |f.window| < f.pipeline && env(i).active {
      var (f1, ts) := Create(f, env(i).now, env(i).measured);
      CreateCarries(f, env(i).now, env(i).measured);
      AttemptSound(f1, ts, env(i).answer, env(i).stopping);
      if env(i).answer == Accepted {
        FillSound(Attempt(f1, ts, env(i).answer, env(i).stopping), env, i + 1);
      }
    }
  }

  lemma RefillSound(f: Flow, active: bool, env: nat -> Tick)
    requires Sound(f)
    ensures Sound(Refill(f, active, env))
  {
    if active && f.pending.None? {
      FillSound(f, env, 0);
    }
  }

  lemma BootstrapSound(f: Flow, now: nat, a: Answer)
    requires Sound(f) && f.pending.None? && |f.window| < f.pipeline
    ensures Sound(Bootstrap(f, now, a))
  {
    var (f1, ts) := Create(f, now, false);
    CreateCarries(f, now, false);
    AttemptSound(f1, ts, a, true);
    if a.Refused? {
      AttemptSound(f1, ts, Refused(true), true);
    }
  }

  lemma PendingCarries(f: Flow)
    requires Sound(f) && f.pending.Some?
    ensures Carrying(f.(pending := None), f.pending.value)
  {
    assert Opt(f.pending) == [f.pending.value];
  }

  lemma AbandonSound(f: Flow)
    requires Sound(f)
    ensures Sound(f.(pending := None, dropped := f.dropped + Opt(f.pending)))
  {
    assert multiset(f.dropped + Opt(f.pending)) == multiset(f.dropped) + multiset(Opt(f.pending));
    assert multiset(Opt(None)) == multiset{};
  }

  lemma WritableSound(f: Flow, active: bool, a: Answer, stopping: bool, again: bool, env: nat -> Tick)
    requires Sound(f)
    ensures Sound(OnWritable(f, active, a, stopping, again, env))
  {
    if !active {
      AbandonSound(f);
    } else if f.pending.None? {
      RefillSound(f, again, env);
    } else {
      PendingCarries(f);
      AttemptSound(f.(pending := None), f.pending.value, a, stopping);
      RefillSound(Attempt(f.(pending := None), f.pending.value, a, stopping), again, env);
    }
  }

  lemma ShiftSound(f: Flow, valid: bool, latency: nat, slot: nat)
    requires Sound(f) && f.window != []
    ensures Sound(Complete(f, Done(f.window[0], valid, latency), slot))
  {
    var done := f.completed + [Done(f.window[0], valid, latency)];
    assert done[..|done| - 1] == f.completed;
    assert f.window == [f.window[0]] + f.window[1..];
    assert Stamps(done) + f.window[1..] == Stamps(f.completed) + ([f.window[0]] + f.window[1..]);
  }

  lemma ResponseSound(f: Flow, finished: nat, valid: bool, slot: nat, active: bool, env: nat -> Tick)
    requires Sound(f)
    ensures Sound(OnResponse(f, finished, valid, slot, active, env))
  {
    if f.window != [] {
      var latency := Saturated(finished, f.window[0].started);
      ShiftSound(f, valid, latency, slot);
      RefillSound(Complete(f, Done(f.window[0], valid, latency), slot), active, env);
    }
  }

  // ----------------------------------------------------------------------------- runs

  datatype Event =
    | Writable(active: bool, a: Answer, stopping: bool, again: bool, env: nat -> Tick)
    | Response(finished: nat, valid: bool, slot: nat, active: bool, env: nat -> Tick)

  function Step(f: Flow, e: Event): Flow {
    match e
    case Writable(active, a, stopping, again, env) => OnWritable(f, active, a, stopping, again, env)
    case Response(finished, valid, slot, active, env) => OnResponse(f, finished, valid, slot, active, env)
  }

  /** A stream is bootstrapped once and then driven by writable and response events. */
  function Run(pipeline: nat, capacity: nat, now: nat, a: Answer, es: seq<Event>): Flow {
    if es == [] then Bootstrap(NewFlow(pipeline, capacity), now, a)
    else Step(Run(pipeline, capacity, now, a, es[..|es| - 1]), es[|es| - 1])
  }

  lemma {:induction false} RunSound(pipeline: nat, capacity: nat, now: nat, a: Answer, es: seq<Event>)
    requires pipeline > 0
    ensures Sound(Run(pipeline, capacity, now, a, es))
  {
    if es == [] {
      assert Opt(None) == [];
      BootstrapSound(NewFlow(pipeline, capacity), now, a);
    } else {
      var f := Run(pipeline, capacity, now, a, es[..|es| - 1]);
      RunSound(pipeline, capacity, now, a, es[..|es| - 1]);
      match es[|es| - 1]
      case Writable(active, answer, stopping, again, env) => WritableSound(f, active, answer, stopping, again, env);
      case Response(finished, valid, slot, active, env) => ResponseSound(f, finished, valid, slot, active, env);
    }
  }

  /** Through any run, timestamps complete in the order they were sent and are never lost or
      counted twice: each one created is completed, in flight, pending or dropped, and in one
      of these places only. A pending one always has room, so resending it cannot overflow. */
  lemma EachInOnePlace(pipeline: nat, capacity: nat, now: nat, a: Answer, es: seq<Event>, i: nat)
    requires pipeline > 0 && i < |Run(pipeline, capacity, now, a, es).created|
    ensures var f := Run(pipeline, capacity, now, a, es);
            var ts := f.created[i];
            && f.accepted == Stamps(f.completed) + f.window
            && multiset(Stamps(f.completed))[ts] + multiset(f.window)[ts]
                 + multiset(Opt(f.pending))[ts] + multiset(f.dropped)[ts] == 1
    ensures Roomy(Run(pipeline, capacity, now, a, es))
  {
    RunSound(pipeline, capacity, now, a, es);
    var f := Run(pipeline, capacity, now, a, es);
    CountedOnce(f.created, i);
    assert multiset(f.accepted) == multiset(Stamps(f.completed)) + multiset(f.window);
  }

  lemma CountedOnce(s: seq<Stamp>, i: nat)
    requires i < |s| && forall j | 0 <= j < |s| :: s[j].id == j
    ensures multiset(s)[s[i]] == 1
  {
    assert s == s[..i] + [s[i]] + s[i + 1..];
    assert s[i] !in s[..i] && s[i] !in s[i + 1..];
  }

  // ------------------------------------------------------------------ what is measured

  /** The latencies of the valid measured exchanges. */
  function Log(ds: seq<Done>): seq<nat> {
    if ds == [] then []
    else
      var d := ds[|ds| - 1];
      Log(ds[..|ds| - 1]) + if d.stamp.measured && d.valid then [d.latency] else []
  }

  /** The number of invalid measured exchanges. */
  function Invalid(ds: seq<Done>): nat {
    if ds == [] then 0
    else
      var d := ds[|ds| - 1];
      Invalid(ds[..|ds| - 1]) + if d.stamp.measured && !d.valid then 1 else 0
  }

  /** The measurements summarise the completed exchanges, and their error count is that of the
      invalid ones and of the measured sends that failed. */
  ghost predicate Measuring(m: Latency.Measured, ds: seq<Done>, capacity: nat, errors: nat) {
    Latency.Summarises(m, Log(ds), capacity) && m.exchangeErrors == errors + Invalid(ds)
  }

  ghost predicate Measures(f: Flow) { Measuring(f.measured, f.completed, f.capacity, f.errors) }

  lemma ErrorMeasures(m: Latency.Measured, ds: seq<Done>, capacity: nat, errors: nat, one: nat)
    requires Measuring(m, ds, capacity, errors)
    ensures Measuring(m.(exchangeErrors := m.exchangeErrors + one), ds, capacity, errors + one)
  {
  }

  lemma AttemptMeasures(f: Flow, ts: Stamp, a: Answer, stopping: bool)
    requires Measures(f)
    ensures Measures(Attempt(f, ts, a, stopping))
  {
    ErrorMeasures(f.measured, f.completed, f.capacity, f.errors, if ts.measured then 1 else 0);
  }

  lemma {:induction false} FillMeasures(f: Flow, env: nat -> Tick, i: nat)
    requires Measures(f)
    ensures Measures(Fill(f, env, i))
    decreases f.pipeline - |f.window|
  {
    if |f.window| < f.pipeline && env(i).active {
      var (f1, ts) := Create(f, env(i).now, env(i).measured);
      AttemptMeasures(f1, ts, env(i).answer, env(i).stopping);
      if env(i).answer == Accepted {
        FillMeasures(Attempt(f1, ts, env(i).answer, env(i).stopping), env, i + 1);
      }
    }
  }

  lemma DoneAfter(ds: seq<Done>, d: Done)
    ensures Log(ds + [d]) == if d.stamp.measured && d.valid then Log(ds) + [d.latency] else Log(ds)
    ensures Invalid(ds + [d]) == Invalid(ds) + if d.stamp.measured && !d.valid then 1 else 0
  {
    assert (ds + [d])[..|ds + [d]| - 1] == ds;
  }

  lemma RecordErrors(m: Latency.Measured, d: Done, capacity: nat, slot: nat)
    ensures Latency.Record(m, d.stamp.measured, d.valid, d.latency, capacity, slot).exchangeErrors ==
            m.exchangeErrors + if d.stamp.measured && !d.valid then 1 else 0
  {
  }

  lemma CompleteMeasures(f: Flow, done: Done, slot: nat)
    requires Measures(f) && f.window != []
    ensures Measures(Complete(f, done, slot))
  {
    DoneAfter(f.completed, done);
    RecordErrors(f.measured, done, f.capacity, slot);
    Latency.RecordSummarises(f.measured, Log(f.completed), done.stamp.measured, done.valid, done.latency, f.capacity, slot);
  }

  lemma RefillMeasures(f: Flow, active: bool, env: nat -> Tick)
    requires Measures(f)
    ensures Measures(Refill(f, active, env))
  {
    FillMeasures(f, env, 0);
  }

  lemma WritableMeasures(f: Flow, active: bool, a: Answer, stopping: bool, again: bool, env: nat -> Tick)
    requires Measures(f)
    ensures Measures(OnWritable(f, active, a, stopping, again, env))
  {
    if active && f.pending.Some? {
      AttemptMeasures(f.(pending := None), f.pending.value, a, stopping);
      RefillMeasures(Attempt(f.(pending := None), f.pending.value, a, stopping), again, env);
    } else if active {
      RefillMeasures(f, again, env);
    }
  }

  lemma ResponseMeasures(f: Flow, finished: nat, valid: bool, slot: nat, active: bool, env: nat -> Tick)
    requires Measures(f)
    ensures Measures(OnResponse(f, finished, valid, slot, active, env))
  {
    if f.window != [] {
      var done := Done(f.window[0], valid, Saturated(finished, f.window[0].started));
      CompleteMeasures(f, done, slot);
      RefillMeasures(Complete(f, done, slot), active, env);
    }
  }

  /** Through any run, the measurements have the exact count and extrema of the latencies of the
      valid measured exchanges that completed, samples drawn from these alone, and an error for
      each invalid measured exchange and each measured send that failed. */
  lemma {:induction false} MeasuredExactly(pipeline: nat, capacity: nat, now: nat, a: Answer, es: seq<Event>)
    ensures Measures(Run(pipeline, capacity, now, a, es))
  {
    if es == [] {
      Latency.RunSummarises([], capacity);
    } else {
      MeasuredExactly(pipeline, capacity, now, a, es[..|es| - 1]);
      var f := Run(pipeline, capacity, now, a, es[..|es| - 1]);
      match es[|es| - 1]
      case Writable(active, answer, stopping, again, env) => WritableMeasures(f, active, answer, stopping, again, env);
      case Response(finished, valid, slot, active, env) => ResponseMeasures(f, finished, valid, slot, active, env);
    }
  }
}
