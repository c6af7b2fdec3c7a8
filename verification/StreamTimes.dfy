/** Which clock readings a latency is made of: the events of a stream, counted without its
    window, say when every request was created, which were sent in which order, and which
    response completes which of them (benchmarks/client.zig). */
module StreamTimes {
  import opened Statuses
  import opened StreamWindow

  /** When a request was created, and whether it is measured. */
  datatype Birth = Birth(at: nat, measured: bool)

  /** When a response came, and whether it is valid. */
  datatype Arrival = Arrival(at: nat, valid: bool)

  /** What counting the events yields: the places taken, whether the request created last is
      still to be sent, every request created, the numbers of those sent, the responses that
      had a request to answer, the measured requests whose send failed, whether a send failed,
      and whether the stream was cancelled. */
  datatype Tally = Tally(
    inflight: nat, waiting: bool, births: seq<Birth>, sends: seq<nat>, arrivals: seq<Arrival>,
    errors: nat, failed: bool, cancelled: bool)

  const NONE := Tally(0, false, [], [], [], 0, false, false)

  /** The request created last is offered to the transport; a refusal is `quiet` if the stream is
      being closed anyway. */
  function Offer(y: Tally, a: Answer, quiet: bool): Tally
    requires y.births != []
  {
    match a
    case Accepted => y.(inflight := y.inflight + 1, waiting := false, sends := y.sends + [|y.births| - 1])
    case Blocked => y.(waiting := true)
    case Refused(_) =>
      if quiet then y.(waiting := false)
      else
        var one := if y.births[|y.births| - 1].measured then 1 else 0;
        y.(waiting := false, errors := y.errors + one, failed := true, cancelled := true)
  }

  predicate Quiet(a: Answer, stopping: bool) { stopping && a.Refused? && a.closed }

  function Bear(y: Tally, at: nat, measured: bool): Tally { y.(births := y.births + [Birth(at, measured)]) }

  /** Turn `i` and those after it: one request each while there is room, sending is active and the
      transport accepts. */
  function Turns(y: Tally, pipeline: nat, env: nat -> Tick, i: nat): Tally
    decreases pipeline - y.inflight
  {
    if y.inflight >= pipeline || !env(i).active then y
    else
      var y1 := Offer(Bear(y, env(i).now, env(i).measured), env(i).answer, Quiet(env(i).answer, env(i).stopping));
      if env(i).answer == Accepted then Turns(y1, pipeline, env, i + 1) else y1
  }

  function Top(y: Tally, pipeline: nat, active: bool, env: nat -> Tick): Tally {
    if active && !y.waiting then Turns(y, pipeline, env, 0) else y
  }

  function Count(y: Tally, pipeline: nat, e: Event): Tally {
    match e
    case Writable(active, a, stopping, again, env) =>
      if !active then y.(waiting := false)
      else if !y.waiting then Top(y, pipeline, again, env)
      else if y.births == [] then y
      else if a == Accepted then Top(Offer(y, a, false), pipeline, again, env)
      else Offer(y, a, Quiet(a, stopping))
    case Response(finished, valid, _, active, env) =>
      if y.inflight == 0 then y.(cancelled := true)
      else
        var y1 := y.(inflight := y.inflight - 1, arrivals := y.arrivals + [Arrival(finished, valid)]);
        if valid then Top(y1, pipeline, active, env) else y1.(cancelled := true)
  }

  function Tallied(pipeline: nat, now: nat, a: Answer, es: seq<Event>): Tally {
    if es == [] then Offer(Bear(NONE, now, false), a, true)
    else Count(Tallied(pipeline, now, a, es[..|es| - 1]), pipeline, es[|es| - 1])
  }

  // ------------------------------------------------------------ the stream agrees with it

  ghost predicate Born(created: seq<Stamp>, births: seq<Birth>) {
    && |created| == |births|
    && forall i | 0 <= i < |births| :: created[i] == Stamp(i, births[i].at, births[i].measured)
  }

  ghost predicate Sent(accepted: seq<Stamp>, created: seq<Stamp>, sends: seq<nat>) {
    && |accepted| == |sends|
    && forall i | 0 <= i < |sends| :: sends[i] < |created| && accepted[i] == created[sends[i]]
  }

  /** The latency of a request created at `from` whose response came at `to`. */
  ghost predicate Lasts(latency: nat, from: nat, to: nat) {
    latency == if to >= from then to - from else 0
  }

  ghost predicate Timed(completed: seq<Done>, arrivals: seq<Arrival>) {
    && |completed| == |arrivals|
    && forall i | 0 <= i < |arrivals| ::
         completed[i].valid == arrivals[i].valid && Lasts(completed[i].latency, completed[i].stamp.started, arrivals[i].at)
  }

  ghost predicate Agrees(f: Flow, y: Tally) {
    && |f.window| == y.inflight && f.pending.Some? == y.waiting
    && (f.pending.Some? ==> f.created != [] && f.pending.value == f.created[|f.created| - 1])
    && f.errors == y.errors && f.failed == y.failed && f.cancelled == y.cancelled
    && Born(f.created, y.births) && Sent(f.accepted, f.created, y.sends) && Timed(f.completed, y.arrivals)
  }

  lemma CreateAgrees(f: Flow, y: Tally, now: nat, measured: bool)
    requires Agrees(f, y) && f.pending.None?
    ensures Agrees(Create(f, now, measured).0, Bear(y, now, measured))
  {
    var f1 := Create(f, now, measured).0;
    forall i | 0 <= i < |y.sends| ensures y.sends[i] < |f1.created| && f1.accepted[i] == f1.created[y.sends[i]] {
      assert f.accepted[i] == f.created[y.sends[i]];
    }
  }

  /** The stamp created last has left `pending` or never was there. */
  lemma OfferAgrees(f: Flow, y: Tally, ts: Stamp, a: Answer, quiet: bool, f': Flow)
    requires Agrees(f, y.(waiting := false)) && f.pending.None? && f.created != [] && ts == f.created[|f.created| - 1]
    requires match a
             case Accepted => f' == SendReserved(f, ts, a)
             case Blocked => f' == SendReserved(f, ts, a)
             case Refused(_) => f' == GiveUp(f, ts, quiet)
    ensures Agrees(f', Offer(y, a, quiet))
  {
  }

  lemma AttemptOffers(f: Flow, y: Tally, ts: Stamp, a: Answer, stopping: bool)
    requires Agrees(f, y.(waiting := false)) && f.pending.None? && f.created != [] && ts == f.created[|f.created| - 1]
    ensures Agrees(Attempt(f, ts, a, stopping), Offer(y, a, Quiet(a, stopping)))
  {
    OfferAgrees(f, y, ts, a, Quiet(a, stopping), Attempt(f, ts, a, stopping));
  }

  lemma TurnAgrees(f: Flow, y: Tally, tick: Tick)
    requires Agrees(f, y) && f.pending.None?
    ensures var (f1, ts) := Create(f, tick.now, tick.measured);
            var f2 := Attempt(f1, ts, tick.answer, tick.stopping);
            && Agrees(f2, Offer(Bear(y, tick.now, tick.measured), tick.answer, Quiet(tick.answer, tick.stopping)))
            && f2.pipeline == f.pipeline && (tick.answer == Accepted ==> f2.pending.None?)
  {
    var (f1, ts) := Create(f, tick.now, tick.measured);
    CreateAgrees(f, y, tick.now, tick.measured);
    AttemptOffers(f1, Bear(y, tick.now, tick.measured), ts, tick.answer, tick.stopping);
  }

  lemma {:induction false} FillAgrees(f: Flow, y: Tally, env: nat -> Tick, i: nat)
    requires Agrees(f, y) && f.pending.None?
    ensures Agrees(Fill(f, env, i), Turns(y, f.pipeline, env, i))
    decreases f.pipeline - |f.window|
  {
    if |f.window| < f.pipeline && env(i).active {
      TurnAgrees(f, y, env(i));
      if env(i).answer == Accepted {
        var (f1, ts) := Create(f, env(i).now, env(i).measured);
        FillAgrees(Attempt(f1, ts, env(i).answer, env(i).stopping),
                   Offer(Bear(y, env(i).now, env(i).measured), env(i).answer, false), env, i + 1);
      }
    }
  }

  lemma RefillAgrees(f: Flow, y: Tally, active: bool, env: nat -> Tick)
    requires Agrees(f, y)
    ensures Agrees(Refill(f, active, env), Top(y, f.pipeline, active, env))
  {
    if active && f.pending.None? {
      FillAgrees(f, y, env, 0);
    }
  }

  lemma WritableAgrees(f: Flow, y: Tally, e: Event)
    requires Agrees(f, y) && e.Writable?
    ensures Agrees(Step(f, e), Count(y, f.pipeline, e))
  {
    if e.active && f.pending.Some? {
      var f0 := f.(pending := None);
      AttemptOffers(f0, y, f.pending.value, e.a, e.stopping);
      RefillAgrees(Attempt(f0, f.pending.value, e.a, e.stopping), Offer(y, e.a, Quiet(e.a, e.stopping)), e.again, e.env);
    } else if e.active {
      RefillAgrees(f, y, e.again, e.env);
    }
  }

  lemma CompleteAgrees(f: Flow, y: Tally, finished: nat, valid: bool, slot: nat)
    requires Agrees(f, y) && f.window != []
    ensures Agrees(Complete(f, Done(f.window[0], valid, Saturated(finished, f.window[0].started)), slot),
                   y.(inflight := y.inflight - 1, arrivals := y.arrivals + [Arrival(finished, valid)]))
  {
    assert Lasts(Saturated(finished, f.window[0].started), f.window[0].started, finished);
  }

  lemma ResponseAgrees(f: Flow, y: Tally, e: Event)
    requires Agrees(f, y) && e.Response?
    ensures Agrees(Step(f, e), Count(y, f.pipeline, e))
  {
    if f.window != [] {
      CompleteAgrees(f, y, e.finished, e.valid, e.slot);
      if e.valid {
        RefillAgrees(Complete(f, Done(f.window[0], e.valid, Saturated(e.finished, f.window[0].started)), e.slot),
                     y.(inflight := y.inflight - 1, arrivals := y.arrivals + [Arrival(e.finished, e.valid)]),
                     e.active, e.env);
      }
    }
  }

  lemma BootstrapAgrees(pipeline: nat, capacity: nat, now: nat, a: Answer)
    ensures Agrees(Bootstrap(NewFlow(pipeline, capacity), now, a), Tallied(pipeline, now, a, []))
  {
    var f := NewFlow(pipeline, capacity);
    CreateAgrees(f, NONE, now, false);
    var (f1, ts) := Create(f, now, false);
    OfferAgrees(f1, Bear(NONE, now, false), ts, a, true, Bootstrap(f, now, a));
  }

  lemma {:induction false} FillPipeline(f: Flow, env: nat -> Tick, i: nat)
    ensures Fill(f, env, i).pipeline == f.pipeline
    decreases f.pipeline - |f.window|
  {
    if |f.window| < f.pipeline && env(i).active && env(i).answer == Accepted {
      var (f1, ts) := Create(f, env(i).now, env(i).measured);
      FillPipeline(Attempt(f1, ts, env(i).answer, env(i).stopping), env, i + 1);
    }
  }

  lemma StepPipeline(f: Flow, e: Event)
    ensures Step(f, e).pipeline == f.pipeline
  {
    match e
    case Writable(_, a, stopping, _, env) =>
      FillPipeline(f, env, 0);
      if f.pending.Some? {
        FillPipeline(Attempt(f.(pending := None), f.pending.value, a, stopping), env, 0);
      }
    case Response(finished, valid, slot, _, env) =>
      if f.window != [] {
        FillPipeline(Complete(f, Done(f.window[0], valid, Saturated(finished, f.window[0].started)), slot), env, 0);
      }
  }

  lemma {:induction false} RunAgrees(pipeline: nat, capacity: nat, now: nat, a: Answer, es: seq<Event>)
    ensures Agrees(Run(pipeline, capacity, now, a, es), Tallied(pipeline, now, a, es))
    ensures Run(pipeline, capacity, now, a, es).pipeline == pipeline
  {
    if es == [] {
      BootstrapAgrees(pipeline, capacity, now, a);
    } else {
      var f, y := Run(pipeline, capacity, now, a, es[..|es| - 1]), Tallied(pipeline, now, a, es[..|es| - 1]);
      RunAgrees(pipeline, capacity, now, a, es[..|es| - 1]);
      StepPipeline(f, es[|es| - 1]);
      if es[|es| - 1].Writable? { WritableAgrees(f, y, es[|es| - 1]); } else { ResponseAgrees(f, y, es[|es| - 1]); }
    }
  }

  lemma {:induction false} StampsAt(ds: seq<Done>, i: nat)
    requires i < |ds|
    ensures |Stamps(ds)| == |ds| && Stamps(ds)[i] == ds[i].stamp
  {
    if i < |ds| - 1 {
      StampsAt(ds[..|ds| - 1], i);
    } else if |ds| > 1 {
      StampsAt(ds[..|ds| - 1], 0);
    }
  }

  /** The sends that fail are those the transport refuses while the stream is not being closed;
      these, a response nobody waits for and an invalid one are what cancels a stream. */
  lemma FailuresExact(pipeline: nat, capacity: nat, now: nat, a: Answer, es: seq<Event>)
    ensures var f, y := Run(pipeline, capacity, now, a, es), Tallied(pipeline, now, a, es);
            && f.failed == y.failed && f.cancelled == y.cancelled
            && f.measured.exchangeErrors == y.errors + Invalid(f.completed)
  {
    RunAgrees(pipeline, capacity, now, a, es);
    MeasuredExactly(pipeline, capacity, now, a, es);
  }

  /** Through any run, the i-th response that finds a request in flight completes the i-th request
      that was sent: its stamp carries the clock and the flag of the turn that created it, its
      latency is the time from then to the response, 0 if the clock ran backwards, and it is
      valid exactly if the response is. */
  lemma LatenciesExact(pipeline: nat, capacity: nat, now: nat, a: Answer, es: seq<Event>, i: nat)
    requires pipeline > 0
    ensures var f, y := Run(pipeline, capacity, now, a, es), Tallied(pipeline, now, a, es);
            && |f.completed| == |y.arrivals| <= |y.sends|
            && (i < |y.arrivals| ==>
                  && y.sends[i] < |y.births|
                  && var birth := y.births[y.sends[i]];
                  && f.completed[i].stamp == Stamp(y.sends[i], birth.at, birth.measured)
                  && f.completed[i].valid == y.arrivals[i].valid
                  && Lasts(f.completed[i].latency, birth.at, y.arrivals[i].at))
  {
    var f, y := Run(pipeline, capacity, now, a, es), Tallied(pipeline, now, a, es);
    RunAgrees(pipeline, capacity, now, a, es);
    RunSound(pipeline, capacity, now, a, es);
    if f.completed != [] {
      StampsAt(f.completed, 0);
    }
    if i < |y.arrivals| {
      StampsAt(f.completed, i);
      assert f.accepted[i] == f.completed[i].stamp;
    }
  }
}
